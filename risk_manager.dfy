/** The risk manager node of `risk_manager.py`: recovering the structured
    trade decision from the judge's free text (three delimited patterns, then
    the last flat object mentioning "signal"), normalising the model's content
    blocks to text, the single focused retry, and the debate state it hands on. */
module RiskManager {
  import opened Wrappers
  import opened JsonValue
  import opened Text

  // ---------------------------------------------------------------------------
  // Scanning helpers for the patterns

  /** End of the whitespace run (`\s*`) starting at `i`. */
  function SpaceRunEnd(s: string, i: nat): (e: nat)
    requires i <= |s|
    ensures i <= e <= |s|
    ensures forall k :: i <= k < e ==> IsSpace(s[k])
    ensures e < |s| ==> !IsSpace(s[e])
    decreases |s| - i
  {
    if i < |s| && IsSpace(s[i]) then SpaceRunEnd(s, i + 1) else i
  }

  /** Index of the first backtick at or after `i`, or `|s|`. */
  function BacktickFrom(s: string, i: nat): (b: nat)
    requires i <= |s|
    ensures i <= b <= |s|
    ensures forall k :: i <= k < b ==> s[k] != '`'
    ensures b < |s| ==> s[b] == '`'
    decreases |s| - i
  {
    if i < |s| && s[i] != '`' then BacktickFrom(s, i + 1) else i
  }

  /** The last index in `[lo, hi)` holding a non-whitespace character, given
      that `s[lo]` is one. */
  function LastNonSpace(s: string, lo: nat, hi: nat): (e: nat)
    requires lo < hi <= |s| && !IsSpace(s[lo])
    ensures lo <= e < hi && !IsSpace(s[e])
    ensures forall k :: e < k < hi ==> IsSpace(s[k])
    decreases hi
  {
    if hi - 1 == lo || !IsSpace(s[hi - 1]) then hi - 1 else LastNonSpace(s, lo, hi - 1)
  }

  /** Index of the first `{` or `}` at or after `i`, or `|s|`. */
  function BraceFrom(s: string, i: nat): (f: nat)
    requires i <= |s|
    ensures i <= f <= |s|
    ensures forall k :: i <= k < f ==> s[k] != '{' && s[k] != '}'
    ensures f < |s| ==> s[f] == '{' || s[f] == '}'
    decreases |s| - i
  {
    if i < |s| && s[i] != '{' && s[i] != '}' then BraceFrom(s, i + 1) else i
  }

  // ---------------------------------------------------------------------------
  // The fenced patterns  ```json\s*(\{[^`]+\})\s*```  and  ```\s*(\{[^`]+\})\s*```

  /** The group of a match of the fenced pattern that starts at `p` with
      `opener`. After the opener and its whitespace comes `{`; the body may
      not hold a backtick, so the closing fence must start at the first
      backtick `b` after the `{`, and the group ends at the last
      non-whitespace character before `b`, which must be a `}`. */
  function FenceCaptureAt(s: string, p: nat, opener: string): (r: Option<string>)
    requires p <= |s|
    ensures r.Some? ==> |r.value| >= 3 && r.value[0] == '{' && r.value[|r.value| - 1] == '}'
    ensures r.Some? ==> '`' !in r.value
  {
    if !OccursAt(s, opener, p) then None
    else
      var w := SpaceRunEnd(s, p + |opener|);
      if !(w < |s| && s[w] == '{') then None
      else
        var b := BacktickFrom(s, w + 1);
        var e := LastNonSpace(s, w, b);
        if e >= w + 2 && s[e] == '}' && OccursAt(s, "```", b) then
          var g := s[w..e + 1];
          assert forall c :: c in g ==> c != '`' by {
            forall c | c in g ensures c != '`' {
              var k :| 0 <= k < |g| && g[k] == c;
              assert g[k] == s[w + k];
            }
          }
          assert g[|g| - 1] == s[e];
          Some(g)
        else None
  }

  /** The leftmost position at or after `p` where the fenced pattern matches, or -1. */
  function FirstFence(s: string, p: nat, opener: string): (q: int)
    requires p <= |s|
    ensures q == -1 || p <= q <= |s|
    ensures q >= 0 ==> FenceCaptureAt(s, q, opener).Some?
    ensures q >= 0 ==> forall j :: p <= j < q ==> FenceCaptureAt(s, j, opener).None?
    ensures q == -1 ==> forall j :: p <= j <= |s| ==> FenceCaptureAt(s, j, opener).None?
    decreases |s| - p
  {
    if FenceCaptureAt(s, p, opener).Some? then p
    else if p == |s| then -1
    else FirstFence(s, p + 1, opener)
  }

  /** `re.search` of a fenced pattern: the group of the leftmost match. */
  function FenceSearch(s: string, opener: string): (r: Option<string>)
    ensures r.Some? ==> |r.value| >= 3 && r.value[0] == '{' && r.value[|r.value| - 1] == '}' && '`' !in r.value
  {
    var q := FirstFence(s, 0, opener);
    if q < 0 then None else FenceCaptureAt(s, q, opener)
  }

  // ---------------------------------------------------------------------------
  // The tag pattern  <json>\s*(\{.+?\})\s*</json>  (with DOTALL)

  /** The tag closes right after position `k`: whitespace, then `</json>`. */
  predicate ClosesTag(s: string, k: nat)
    requires k < |s|
  {
    s[k] == '}' && OccursAt(s, "</json>", SpaceRunEnd(s, k + 1))
  }

  /** The lazy `.+?`: the first `k >= i` at which the tag closes, or -1. */
  function LazyClose(s: string, i: nat): (k: int)
    requires i <= |s|
    ensures k == -1 || i <= k < |s|
    ensures k >= 0 ==> ClosesTag(s, k)
    ensures k >= 0 ==> forall j :: i <= j < k ==> !ClosesTag(s, j)
    ensures k == -1 ==> forall j :: i <= j < |s| ==> !ClosesTag(s, j)
    decreases |s| - i
  {
    if i == |s| then -1
    else if ClosesTag(s, i) then i
    else LazyClose(s, i + 1)
  }

  /** The group of a match of the tag pattern starting at `p`: the shortest
      `{ … }` (at least one character inside) after which the tag closes. */
  function TagCaptureAt(s: string, p: nat): (r: Option<string>)
    requires p <= |s|
    ensures r.Some? ==> |r.value| >= 3 && r.value[0] == '{' && r.value[|r.value| - 1] == '}'
  {
    if !OccursAt(s, "<json>", p) then None
    else
      var w := SpaceRunEnd(s, p + 6);
      if !(w + 2 <= |s| && s[w] == '{') then None
      else
        var k := LazyClose(s, w + 2);
        if k < 0 then None
        else
          assert s[w..k + 1][k - w] == s[k];
          Some(s[w..k + 1])
  }

  function FirstTag(s: string, p: nat): (q: int)
    requires p <= |s|
    ensures q == -1 || p <= q <= |s|
    ensures q >= 0 ==> TagCaptureAt(s, q).Some?
    ensures q >= 0 ==> forall j :: p <= j < q ==> TagCaptureAt(s, j).None?
    ensures q == -1 ==> forall j :: p <= j <= |s| ==> TagCaptureAt(s, j).None?
    decreases |s| - p
  {
    if TagCaptureAt(s, p).Some? then p
    else if p == |s| then -1
    else FirstTag(s, p + 1)
  }

  function TagSearch(s: string): (r: Option<string>)
    ensures r.Some? ==> |r.value| >= 3 && r.value[0] == '{' && r.value[|r.value| - 1] == '}'
  {
    var q := FirstTag(s, 0);
    if q < 0 then None else TagCaptureAt(s, q)
  }

  // ---------------------------------------------------------------------------
  // The last resort  re.findall(r'\{[^{}]*"signal"[^{}]*\}', text)

  /** The object contains no brace between its delimiters. */
  predicate Flat(m: string)
  {
    |m| >= 2 && m[0] == '{' && m[|m| - 1] == '}'
    && forall k :: 0 < k < |m| - 1 ==> m[k] != '{' && m[k] != '}'
  }

  /** All non-overlapping matches from `p` on, left to right. A match at a `{`
      must close at the first brace after it, so it is the flat object from
      that `{` to the next `}`, when that object mentions `"signal"`. */
  function FlatSignalObjects(s: string, p: nat): seq<string>
    requires p <= |s|
    decreases |s| - p
  {
    if p == |s| then []
    else if s[p] != '{' then FlatSignalObjects(s, p + 1)
    else
      var f := BraceFrom(s, p + 1);
      if f < |s| && s[f] == '}' && Contains(s[p + 1..f], "\"signal\"") then
        [s[p..f + 1]] + FlatSignalObjects(s, f + 1)
      else FlatSignalObjects(s, p + 1)
  }

  /** Every match is a brace-free `{…}` object mentioning "signal". */
  lemma FlatSignalObjectsShape(s: string, p: nat)
    requires p <= |s|
    ensures forall k :: 0 <= k < |FlatSignalObjects(s, p)| ==>
              Flat(FlatSignalObjects(s, p)[k]) && Contains(FlatSignalObjects(s, p)[k], "\"signal\"")
  {
    forall k | 0 <= k < |FlatSignalObjects(s, p)|
      ensures Flat(FlatSignalObjects(s, p)[k]) && Contains(FlatSignalObjects(s, p)[k], "\"signal\"")
    {
      FlatSignalObjectShape(s, p, k);
    }
  }

  lemma {:induction false} FlatSignalObjectShape(s: string, p: nat, k: nat)
    requires p <= |s| && k < |FlatSignalObjects(s, p)|
    ensures Flat(FlatSignalObjects(s, p)[k]) && Contains(FlatSignalObjects(s, p)[k], "\"signal\"")
    decreases |s| - p, 1
  {
    NoObjectsAtEnd(s);
    assert p < |s|;
    var f := BraceFrom(s, p + 1);
    if s[p] == '{' && f < |s| && s[f] == '}' && Contains(s[p + 1..f], "\"signal\"") {
      MatchShape(s, p, f, k);
    } else {
      SkipShape(s, p, k);
    }
  }

  lemma {:induction false} MatchShape(s: string, p: nat, f: nat, k: nat)
    requires p < f < |s| && s[p] == '{' && s[f] == '}' && BraceFrom(s, p + 1) == f
    requires Contains(s[p + 1..f], "\"signal\"")
    requires k < |FlatSignalObjects(s, p)|
    ensures Flat(FlatSignalObjects(s, p)[k]) && Contains(FlatSignalObjects(s, p)[k], "\"signal\"")
    decreases |s| - p, 0
  {
    var m := ElementAfterMatch(s, p, f, k);
    if k == 0 {
      FlatMatch(s, p, f);
    } else {
      FlatSignalObjectShape(s, f + 1, k - 1);
    }
  }

  /** Element `k` of the matches from a match at `p` closing at `f`: the
      match itself for `k == 0`, else element `k - 1` of the matches after
      `f`. */
  lemma ElementAfterMatch(s: string, p: nat, f: nat, k: nat) returns (m: string)
    requires p < f < |s| && s[p] == '{' && s[f] == '}' && BraceFrom(s, p + 1) == f
    requires Contains(s[p + 1..f], "\"signal\"")
    requires k < |FlatSignalObjects(s, p)|
    ensures m == FlatSignalObjects(s, p)[k]
    ensures k == 0 ==> m == s[p..f + 1]
    ensures k > 0 ==> k - 1 < |FlatSignalObjects(s, f + 1)| && m == FlatSignalObjects(s, f + 1)[k - 1]
  {
    FlatSignalObjectsAt(s, p, f);
    m := FlatSignalObjects(s, p)[k];
  }

  lemma {:induction false} SkipShape(s: string, p: nat, k: nat)
    requires p < |s|
    requires !(s[p] == '{' && BraceFrom(s, p + 1) < |s| && s[BraceFrom(s, p + 1)] == '}'
               && Contains(s[p + 1..BraceFrom(s, p + 1)], "\"signal\""))
    requires k < |FlatSignalObjects(s, p)|
    ensures Flat(FlatSignalObjects(s, p)[k]) && Contains(FlatSignalObjects(s, p)[k], "\"signal\"")
    decreases |s| - p, 0
  {
    FlatSignalObjectsSkip(s, p);
    FlatSignalObjectShape(s, p + 1, k);
  }

  /** A position that does not start a match is passed over. */
  lemma FlatSignalObjectsSkip(s: string, p: nat)
    requires p < |s|
    requires !(s[p] == '{' && BraceFrom(s, p + 1) < |s| && s[BraceFrom(s, p + 1)] == '}'
               && Contains(s[p + 1..BraceFrom(s, p + 1)], "\"signal\""))
    ensures FlatSignalObjects(s, p) == FlatSignalObjects(s, p + 1)
  {
  }

  /** The text from a `{` to the next brace, a `}`, is a flat object, and it
      mentions "signal" when its inside does. */
  lemma FlatMatch(s: string, p: nat, f: nat)
    requires p < f < |s| && s[p] == '{' && s[f] == '}'
    requires forall k :: p + 1 <= k < f ==> s[k] != '{' && s[k] != '}'
    requires Contains(s[p + 1..f], "\"signal\"")
    ensures Flat(s[p..f + 1]) && Contains(s[p..f + 1], "\"signal\"")
  {
    var m := s[p..f + 1];
    assert forall k :: 0 < k < |m| - 1 ==> m[k] == s[p + k];
    assert m[1..|m| - 1] == s[p + 1..f];
    ContainsWithin(m, "\"signal\"");
  }

  /** A pattern found inside `m[1..|m|-1]` is found in `m`. */
  lemma ContainsWithin(m: string, pat: string)
    requires |m| >= 2 && Contains(m[1..|m| - 1], pat)
    ensures Contains(m, pat)
  {
    var t := m[1..|m| - 1];
    var i := Find(t, pat);
    OccursInSlice(m, 1, |m| - 1, pat, i);
  }

  // ---------------------------------------------------------------------------
  // parse_trade_decision_json

  /** The capture of the last resort: the last flat object mentioning "signal". */
  function LastFlatSignal(text: string): Option<string>
  {
    var ms := FlatSignalObjects(text, 0);
    if ms == [] then None else Some(ms[|ms| - 1])
  }

  /** The delimited captures, in the order the patterns are tried. */
  function DelimitedCaptures(text: string): seq<Option<string>>
  {
    [FenceSearch(text, "```json"), FenceSearch(text, "```"), TagSearch(text)]
  }

  /** The first of `captures` (from index `i`) that decodes, decoded. */
  function FirstDecoded(decode: string -> Option<Json>, captures: seq<Option<string>>, i: nat): (r: Option<Json>)
    requires i <= |captures|
    ensures r.None? <==> forall k :: i <= k < |captures| ==> captures[k].None? || decode(captures[k].value).None?
    ensures r.Some? ==> exists k :: i <= k < |captures| && captures[k].Some? && r == decode(captures[k].value)
                          && forall j :: i <= j < k ==> captures[j].None? || decode(captures[j].value).None?
    decreases |captures| - i
  {
    if i == |captures| then None
    else if captures[i].Some? && decode(captures[i].value).Some? then decode(captures[i].value)
    else FirstDecoded(decode, captures, i + 1)
  }

  /** `parse_trade_decision_json`: the first delimited capture that decodes;
      failing all three, the last flat object mentioning "signal", decoded.
      Decode failures are absorbed: the result is then None. */
  function ParseTradeDecisionJson(decode: string -> Option<Json>, text: string): (r: Option<Json>)
    ensures FirstDecoded(decode, DelimitedCaptures(text), 0).Some? ==>
              r == FirstDecoded(decode, DelimitedCaptures(text), 0)
    ensures FirstDecoded(decode, DelimitedCaptures(text), 0).None? ==>
              r == (if LastFlatSignal(text).Some? then decode(LastFlatSignal(text).value) else None)
  {
    var delimited := FirstDecoded(decode, DelimitedCaptures(text), 0);
    if delimited.Some? then delimited
    else
      var last := LastFlatSignal(text);
      if last.None? then None else decode(last.value)
  }

  /** A flat object mentioning "signal" placed in plain text is what the last
      resort recovers. */
  lemma LastResortFindsFlatObject(decode: string -> Option<Json>, prefix: string, obj: string)
    requires Flat(obj) && Contains(obj[1..|obj| - 1], "\"signal\"")
    requires forall c :: c in prefix ==> c != '{' && c != '}' && c != '`' && c != '<'
    requires forall c :: c in obj ==> c != '`' && c != '<'
    ensures LastFlatSignal(prefix + obj) == Some(obj)
  {
    var s := prefix + obj;
    assert s[..|prefix|] == prefix;
    PrefixSkipped(s, prefix, 0);
    assert s[|prefix|..] == obj;
    FlatObjectAt(s, |prefix|, obj);
  }

  /** A flat object mentioning "signal" that ends the text is the one match
      from its `{` on. */
  lemma FlatObjectAt(s: string, p: nat, obj: string)
    requires p <= |s| && s[p..] == obj
    requires Flat(obj) && Contains(obj[1..|obj| - 1], "\"signal\"")
    ensures FlatSignalObjects(s, p) == [obj]
  {
    BraceFromFlat(s, p, obj);
    FlatObjectEnds(s, p, obj);
    FlatSignalObjectsLast(s, p);
  }

  /** A match that closes at the last character is the last match. */
  lemma FlatSignalObjectsLast(s: string, p: nat)
    requires p < |s| - 1 && s[p] == '{' && s[|s| - 1] == '}' && BraceFrom(s, p + 1) == |s| - 1
    requires Contains(s[p + 1..|s| - 1], "\"signal\"")
    ensures FlatSignalObjects(s, p) == [s[p..]]
  {
    var e := |s| - 1;
    FlatSignalObjectsAt(s, p, e);
    assert e + 1 == |s| && s[p..e + 1] == s[p..];
    NoObjectsAtEnd(s);
  }

  lemma NoObjectsAtEnd(s: string)
    ensures FlatSignalObjects(s, |s|) == []
  {
  }

  lemma FlatObjectEnds(s: string, p: nat, obj: string)
    requires p <= |s| && s[p..] == obj && Flat(obj)
    requires Contains(obj[1..|obj| - 1], "\"signal\"")
    ensures p < |s| - 1 && s[p] == '{' && s[|s| - 1] == '}'
    ensures Contains(s[p + 1..|s| - 1], "\"signal\"") && s[p..|s|] == obj
  {
    assert s[p] == obj[0];
    assert s[|s| - 1] == obj[|obj| - 1];
    assert s[p..][1..|obj| - 1] == s[p + 1..|s| - 1];
  }

  /** A `{` whose next brace is a `}` with "signal" between them starts a match. */
  lemma FlatSignalObjectsAt(s: string, p: nat, f: nat)
    requires p < f < |s| && s[p] == '{' && s[f] == '}' && BraceFrom(s, p + 1) == f
    requires Contains(s[p + 1..f], "\"signal\"")
    ensures FlatSignalObjects(s, p) == [s[p..f + 1]] + FlatSignalObjects(s, f + 1)
  {
  }

  /** The first brace after the `{` of a flat object ending the text is its
      closing `}`. */
  lemma BraceFromFlat(s: string, p: nat, obj: string)
    requires p <= |s| && s[p..] == obj && Flat(obj)
    ensures p + 1 <= |s| - 1 && BraceFrom(s, p + 1) == |s| - 1
  {
    assert forall k :: p + 1 <= k < |s| - 1 ==> s[k] == obj[k - p];
    assert s[|s| - 1] == obj[|obj| - 1];
  }

  /** In text with no backtick and no `<`, a flat object mentioning "signal"
      at the end is the decision the parser decodes. */
  lemma PlainTextFlatObject(decode: string -> Option<Json>, prefix: string, obj: string)
    requires Flat(obj) && Contains(obj[1..|obj| - 1], "\"signal\"")
    requires forall c :: c in prefix ==> c != '{' && c != '}' && c != '`' && c != '<'
    requires forall c :: c in obj ==> c != '`' && c != '<'
    ensures ParseTradeDecisionJson(decode, prefix + obj) == decode(obj)
  {
    var s := prefix + obj;
    LastResortFindsFlatObject(decode, prefix, obj);
    assert forall k :: 0 <= k < |s| ==> s[k] != '`' && s[k] != '<' by {
      forall k | 0 <= k < |s| ensures s[k] != '`' && s[k] != '<' {
        if k < |prefix| { assert s[k] == prefix[k] && prefix[k] in prefix; }
        else { assert s[k] == obj[k - |prefix|] && obj[k - |prefix|] in obj; }
      }
    }
    NoFenceWithoutBacktick(s, "```json");
    NoFenceWithoutBacktick(s, "```");
    NoTagWithoutAngle(s);
    assert DelimitedCaptures(s) == [None, None, None];
  }

  lemma NoFenceWithoutBacktick(s: string, opener: string)
    requires |opener| > 0 && opener[0] == '`'
    requires forall k :: 0 <= k < |s| ==> s[k] != '`'
    ensures FenceSearch(s, opener) == None
  {
  }

  lemma NoTagWithoutAngle(s: string)
    requires forall k :: 0 <= k < |s| ==> s[k] != '<'
    ensures TagSearch(s) == None
  {
    var q := FirstTag(s, 0);
    NoTagAt(s, if q >= 0 then q else 0);
  }

  lemma NoTagAt(s: string, j: nat)
    requires j <= |s|
    requires forall k :: 0 <= k < |s| ==> s[k] != '<'
    ensures TagCaptureAt(s, j).None?
  {
    if j < |s| {
      assert s[j] != '<';
    }
  }

  lemma {:induction false} PrefixSkipped(s: string, prefix: string, i: nat)
    requires i <= |prefix| <= |s| && s[..|prefix|] == prefix
    requires forall c :: c in prefix ==> c != '{'
    ensures FlatSignalObjects(s, i) == FlatSignalObjects(s, |prefix|)
    decreases |prefix| - i
  {
    if i < |prefix| {
      assert s[i] == prefix[i] && prefix[i] in prefix;
      PrefixSkipped(s, prefix, i + 1);
    }
  }

  // ---------------------------------------------------------------------------
  // What the delimited patterns recover

  /** A reply that puts a JSON object in a ```json fence, after text without
      backticks, yields that object when it decodes, whatever follows. */
  lemma JsonFenceDecision(decode: string -> Option<Json>, prefix: string, body: string, rest: string)
    requires '`' !in prefix
    requires |body| >= 3 && body[0] == '{' && body[|body| - 1] == '}' && '`' !in body
    requires decode(body).Some?
    ensures ParseTradeDecisionJson(decode, prefix + "```json" + body + "```" + rest) == decode(body)
  {
    var s := prefix + "```json" + body + "```" + rest;
    var p := |prefix|;
    assert s[..p] == prefix;
    assert s[p..p + 7] == "```json" && s[p + 7..p + 7 + |body|] == body;
    assert s[p + 7 + |body|..p + 10 + |body|] == "```";
    FenceCaptureOf(s, p, body);
    forall k | 0 <= k < p
      ensures s[k] != '`'
    {
      assert s[k] == prefix[k] && prefix[k] in prefix;
    }
    FirstFenceSkips(s, 0, p, "```json");
    assert DelimitedCaptures(s)[0] == Some(body);
  }

  /** The fenced pattern with the `json` opener matches at `p` when a
      backtick-free `{…}` body and a closing fence follow the opener. */
  lemma FenceCaptureOf(s: string, p: nat, body: string)
    requires p + 10 + |body| <= |s|
    requires s[p..p + 7] == "```json" && s[p + 7..p + 7 + |body|] == body
    requires s[p + 7 + |body|..p + 10 + |body|] == "```"
    requires |body| >= 3 && body[0] == '{' && body[|body| - 1] == '}' && '`' !in body
    ensures FenceCaptureAt(s, p, "```json") == Some(body)
  {
    var w := p + 7;
    var b := w + |body|;
    assert OccursAt(s, "```json", p);
    assert s[w] == body[0];
    assert SpaceRunEnd(s, w) == w;
    forall k | w + 1 <= k < b
      ensures s[k] != '`'
    {
      assert s[k] == body[k - w] && body[k - w] in body;
    }
    assert s[b] == s[b..b + 3][0] == '`';
    BacktickAt(s, w + 1, b);
    assert s[b - 1] == body[|body| - 1];
    assert OccursAt(s, "```", b);
    assert s[w..b] == body;
  }

  /** The first backtick from `i` is at `b` when there is none before it. */
  lemma BacktickAt(s: string, i: nat, b: nat)
    requires i <= b < |s| && s[b] == '`'
    requires forall k :: i <= k < b ==> s[k] != '`'
    ensures BacktickFrom(s, i) == b
  {
  }

  /** Positions without a backtick start no fenced match and are passed
      over by the search. */
  lemma {:induction false} FirstFenceSkips(s: string, p: nat, q: nat, opener: string)
    requires p <= q <= |s| && |opener| > 0 && opener[0] == '`'
    requires forall k :: p <= k < q ==> s[k] != '`'
    ensures FirstFence(s, p, opener) == FirstFence(s, q, opener)
    decreases q - p
  {
    if p < q {
      assert !OccursAt(s, opener, p) by {
        if p + |opener| <= |s| {
          assert s[p..p + |opener|][0] == s[p];
        }
      }
      FirstFenceSkips(s, p + 1, q, opener);
    }
  }

  /** A reply without backticks that tags a JSON object as `<json>…</json>`,
      after text without `<`, yields that object when it decodes; the
      object may not hold `<`, so the lazy match ends at its own `}`. */
  lemma JsonTagDecision(decode: string -> Option<Json>, prefix: string, body: string, rest: string)
    requires '`' !in prefix && '`' !in body && '`' !in rest && '<' !in prefix
    requires |body| >= 3 && body[0] == '{' && body[|body| - 1] == '}' && '<' !in body
    requires decode(body).Some?
    ensures ParseTradeDecisionJson(decode, prefix + "<json>" + body + "</json>" + rest) == decode(body)
  {
    var s := prefix + "<json>" + body + "</json>" + rest;
    assert '`' !in s;
    NoFenceWithoutBacktick(s, "```json");
    NoFenceWithoutBacktick(s, "```");
    TagSearchOf(prefix, body, rest);
    ThirdCaptureDecoded(decode, DelimitedCaptures(s));
  }

  /** When only the third pattern captures, its capture is what decodes. */
  lemma ThirdCaptureDecoded(decode: string -> Option<Json>, captures: seq<Option<string>>)
    requires |captures| == 3 && captures[0].None? && captures[1].None? && captures[2].Some?
    ensures FirstDecoded(decode, captures, 0) == decode(captures[2].value)
  {
    assert FirstDecoded(decode, captures, 3) == None;
  }

  /** The tag search finds the body of the first tag when no `<` comes
      before it. */
  lemma TagSearchOf(prefix: string, body: string, rest: string)
    requires '<' !in prefix
    requires |body| >= 3 && body[0] == '{' && body[|body| - 1] == '}' && '<' !in body
    ensures TagSearch(prefix + "<json>" + body + "</json>" + rest) == Some(body)
  {
    var s := prefix + "<json>" + body + "</json>" + rest;
    var p := |prefix|;
    assert s[p..p + 6] == "<json>" && s[p + 6..p + 6 + |body|] == body;
    assert s[p + 6 + |body|..p + 13 + |body|] == "</json>";
    TagCaptureOf(s, p, body);
    forall k | 0 <= k < p
      ensures s[k] != '<'
    {
      assert s[k] == prefix[k] && prefix[k] in prefix;
    }
    FirstTagSkips(s, 0, p);
  }

  /** The tag pattern matches at `p` when a `{…}` body without `<` and the
      closing tag follow the opening tag. */
  lemma TagCaptureOf(s: string, p: nat, body: string)
    requires p + 13 + |body| <= |s|
    requires s[p..p + 6] == "<json>" && s[p + 6..p + 6 + |body|] == body
    requires s[p + 6 + |body|..p + 13 + |body|] == "</json>"
    requires |body| >= 3 && body[0] == '{' && body[|body| - 1] == '}' && '<' !in body
    ensures TagCaptureAt(s, p) == Some(body)
  {
    var w := p + 6;
    assert OccursAt(s, "<json>", p);
    assert s[w] == body[0];
    assert SpaceRunEnd(s, w) == w;
    BodyCloses(s, w, body);
    assert s[w..w + |body|] == body;
  }

  /** After a `{…}` body without `<` that the closing tag follows, the lazy
      match closes at the body's last character. */
  lemma BodyCloses(s: string, w: nat, body: string)
    requires w + 7 + |body| <= |s|
    requires s[w..w + |body|] == body && s[w + |body|..w + |body| + 7] == "</json>"
    requires |body| >= 3 && body[|body| - 1] == '}' && '<' !in body
    ensures LazyClose(s, w + 2) == w + |body| - 1
  {
    var e := w + |body| - 1;
    assert s[e] == body[|body| - 1];
    assert s[e + 1] == s[e + 1..e + 8][0] == '<';
    assert SpaceRunEnd(s, e + 1) == e + 1;
    assert OccursAt(s, "</json>", e + 1);
    forall k | w <= k <= e
      ensures s[k] != '<'
    {
      assert s[k] == body[k - w] && body[k - w] in body;
    }
    NoEarlyClose(s, w + 2, e);
    LazyCloseAt(s, w + 2, e);
  }

  /** Before a non-space `e`, with no `<` up to it, the tag cannot close. */
  lemma NoEarlyClose(s: string, i: nat, e: nat)
    requires i <= e < |s| && !IsSpace(s[e])
    requires forall k :: i <= k <= e ==> s[k] != '<'
    ensures forall j :: i <= j < e ==> !ClosesTag(s, j)
  {
    forall j | i <= j < e
      ensures !ClosesTag(s, j)
    {
      var r := SpaceRunEnd(s, j + 1);
      assert r <= e;
      if r + 7 <= |s| {
        assert s[r..r + 7][0] == s[r];
      }
    }
  }

  /** The lazy match closes at `e` when the tag closes there and nowhere
      before. */
  lemma LazyCloseAt(s: string, i: nat, e: nat)
    requires i <= e < |s| && ClosesTag(s, e)
    requires forall j :: i <= j < e ==> !ClosesTag(s, j)
    ensures LazyClose(s, i) == e
  {
  }

  /** Positions without `<` start no tag match and are passed over. */
  lemma {:induction false} FirstTagSkips(s: string, p: nat, q: nat)
    requires p <= q <= |s|
    requires forall k :: p <= k < q ==> s[k] != '<'
    ensures FirstTag(s, p) == FirstTag(s, q)
    decreases q - p
  {
    if p < q {
      assert !OccursAt(s, "<json>", p) by {
        if p + 6 <= |s| {
          assert s[p..p + 6][0] == s[p];
        }
      }
      FirstTagSkips(s, p + 1, q);
    }
  }

  /** A reply without any `{` holds no decision. */
  lemma NoBraceNoDecision(decode: string -> Option<Json>, text: string)
    requires '{' !in text
    ensures ParseTradeDecisionJson(decode, text) == None
  {
    var q1 := FirstFence(text, 0, "```json");
    var q2 := FirstFence(text, 0, "```");
    var q3 := FirstTag(text, 0);
    NoBraceNoFence(text, if q1 >= 0 then q1 else 0, "```json");
    NoBraceNoFence(text, if q2 >= 0 then q2 else 0, "```");
    NoBraceNoTag(text, if q3 >= 0 then q3 else 0);
    NoBraceNoObjects(text, 0);
    assert DelimitedCaptures(text) == [None, None, None];
  }

  lemma NoBraceNoFence(s: string, p: nat, opener: string)
    requires p <= |s| && '{' !in s
    ensures FenceCaptureAt(s, p, opener).None?
  {
    if OccursAt(s, opener, p) {
      var w := SpaceRunEnd(s, p + |opener|);
      if w < |s| {
        assert s[w] in s;
      }
    }
  }

  lemma NoBraceNoTag(s: string, p: nat)
    requires p <= |s| && '{' !in s
    ensures TagCaptureAt(s, p).None?
  {
    if OccursAt(s, "<json>", p) {
      var w := SpaceRunEnd(s, p + 6);
      if w < |s| {
        assert s[w] in s;
      }
    }
  }

  lemma {:induction false} NoBraceNoObjects(s: string, p: nat)
    requires p <= |s| && '{' !in s
    ensures FlatSignalObjects(s, p) == []
    decreases |s| - p
  {
    if p < |s| {
      assert s[p] in s;
      NoBraceNoObjects(s, p + 1);
    }
  }

  // ---------------------------------------------------------------------------
  // Content normalisation

  /** One element of a list-valued `response.content`. */
  datatype Block =
    | DictBlock(fields: map<string, Json>, repr: string)  // a dict; `repr` is `str(block)`
    | AttrBlock(text: Json)                               // an object with a `.text` attribute
    | PlainBlock(repr: string)                            // anything else; `repr` is `str(block)`

  /** `response.content` as the model client hands it over. */
  datatype Content =
    | TextContent(s: string)
    | ListContent(blocks: seq<Block>)
    | DictContent(fields: map<string, Json>)
    | OtherContent

  /** The value the loop appends for one block. */
  function BlockPiece(b: Block): Json
  {
    match b
    case DictBlock(fields, repr) => if "text" in fields then fields["text"] else JStr(repr)
    case AttrBlock(t) => t
    case PlainBlock(repr) => JStr(repr)
  }

  /** `"\n".join(pieces)`: TypeError unless every piece is a string. */
  function JoinPieces(pieces: seq<Json>): (r: Result<string, PyError>)
    ensures r.Err? <==> exists k :: 0 <= k < |pieces| && !pieces[k].JStr?
    ensures r.Err? ==> r.error == TypeError
  {
    if forall k :: 0 <= k < |pieces| ==> pieces[k].JStr? then
      Ok(Join(seq(|pieces|, k requires 0 <= k < |pieces| => pieces[k].s), "\n"))
    else Err(TypeError)
  }

  /** The text `parse_trade_decision_json` gets to see, or the TypeError that
      `re.search` raises when the content is not (or does not become) a string. */
  function NormalisedText(c: Content): Result<string, PyError>
  {
    match c
    case TextContent(s) => Ok(s)
    case ListContent(blocks) => JoinPieces(seq(|blocks|, k requires 0 <= k < |blocks| => BlockPiece(blocks[k])))
    case DictContent(fields) =>
      if "text" in fields && fields["text"].JStr? then Ok(fields["text"].s) else Err(TypeError)
    case OtherContent => Err(TypeError)
  }

  /** The block loop: one piece appended per block, in order, then joined. */
  method NormaliseContent(c: Content) returns (r: Result<string, PyError>)
    ensures r == NormalisedText(c)
    ensures c.TextContent? ==> r == Ok(c.s)
    ensures c.ListContent? && (forall k :: 0 <= k < |c.blocks| ==> c.blocks[k].PlainBlock?) ==> r.Ok?
  {
    match c {
      case ListContent(blocks) =>
        var texts: seq<Json> := [];
        var i := 0;
        while i < |blocks|
          invariant 0 <= i <= |blocks|
          invariant |texts| == i
          invariant forall k :: 0 <= k < i ==> texts[k] == BlockPiece(blocks[k])
        {
          var b := blocks[i];
          if b.DictBlock? && "text" in b.fields {
            texts := texts + [b.fields["text"]];
          } else if b.AttrBlock? {
            texts := texts + [b.text];
          } else {
            texts := texts + [JStr(b.repr)];
          }
          i := i + 1;
        }
        assert texts == seq(|blocks|, k requires 0 <= k < |blocks| => BlockPiece(blocks[k]));
        r := JoinPieces(texts);
      case DictContent(fields) =>
        if "text" in fields && fields["text"].JStr? {
          r := Ok(fields["text"].s);
        } else {
          r := Err(TypeError);
        }
      case TextContent(s) =>
        r := Ok(s);
      case OtherContent =>
        r := Err(TypeError);
    }
  }

  // ---------------------------------------------------------------------------
  // The node

  datatype RiskDebateState = RiskDebateState(
    history: string,
    riskyHistory: string,
    safeHistory: string,
    neutralHistory: string,
    latestSpeaker: string,
    currentRiskyResponse: string,
    currentSafeResponse: string,
    currentNeutralResponse: string,
    judgeDecision: string,
    count: int)

  datatype NodeOutput = NodeOutput(
    riskDebateState: RiskDebateState,
    finalTradeDecision: string,
    tradeDecision: Json)

  /** `trade_decision is None` (a decoded JSON `null` is Python's None too). */
  predicate IsNone(d: Option<Json>) { d.None? || d == Some(JNull) }

  /** The debate state the node hands on: the judge's text and speaker set,
      every other field copied. */
  function JudgedState(debate: RiskDebateState, responseText: string): (r: RiskDebateState)
    ensures r.judgeDecision == responseText && r.latestSpeaker == "Judge"
    ensures r.(judgeDecision := debate.judgeDecision, latestSpeaker := debate.latestSpeaker) == debate
  {
    debate.(judgeDecision := responseText, latestSpeaker := "Judge")
  }

  /** `risk_manager_node` after the prompt is built: `first` is the judge's
      reply, `second` the reply to the focused retry prompt, which is only
      requested (`retried`) when the first reply yields no decision. */
  method RiskManagerNode(decode: string -> Option<Json>, debate: RiskDebateState, first: Content, second: Content)
    returns (r: Result<NodeOutput, PyError>, retried: bool)
    ensures NormalisedText(first).Err? ==> r == Err(TypeError) && !retried
    ensures NormalisedText(first).Ok? ==>
              retried == IsNone(ParseTradeDecisionJson(decode, NormalisedText(first).value))
    ensures retried && NormalisedText(second).Err? ==> r == Err(TypeError)
    ensures (retried && NormalisedText(second).Ok?
             && IsNone(ParseTradeDecisionJson(decode, NormalisedText(second).value))) ==>
              r == Err(if second.DictContent? then TypeError else ValueError)
    ensures r.Ok? ==> NormalisedText(first).Ok?
    ensures r.Ok? ==>
              var text := NormalisedText(first).value;
              r.value.riskDebateState == JudgedState(debate, text)
              && r.value.finalTradeDecision == text
              && !IsNone(Some(r.value.tradeDecision))
              && Some(r.value.tradeDecision)
                 == ParseTradeDecisionJson(decode, if retried then NormalisedText(second).value else text)
    ensures r.Err? ==> r.error == TypeError || (r.error == ValueError && retried && !second.DictContent?)
  {
    retried := false;
    var responseText := NormaliseContent(first);
    if responseText.Err? {
      return Err(TypeError), false;
    }
    var tradeDecision := ParseTradeDecisionJson(decode, responseText.value);
    if IsNone(tradeDecision) {
      retried := true;
      var retryText := NormaliseContent(second);
      if retryText.Err? {
        return Err(TypeError), true;
      }
      tradeDecision := ParseTradeDecisionJson(decode, retryText.value);
      if IsNone(tradeDecision) {
        // The message of the ValueError slices the raw retry content, and
        // slicing a dict raises before the ValueError is built.
        if second.DictContent? {
          return Err(TypeError), true;
        }
        return Err(ValueError), true;
      }
    }
    var state := JudgedState(debate, responseText.value);
    r := Ok(NodeOutput(state, responseText.value, tradeDecision.value));
  }
}
