/** `scripts/comparison_worker.py`: the symbol parsing and count checks of
    `main`, the re-sorting of the finished analyses into input order, the
    success threshold, and the per-asset lines of
    `format_comparison_result`. Symbol resolution, each analysis, the order
    in which the worker threads finish, the backend's comparison text and
    the Telegram send are oracles. */
module ComparisonWorker {
  import opened Wrappers
  import opened Text
  import Sorting
  import GeminiUtils

  // ---------------------------------------------------------------------------
  // Symbol parsing

  /** `[s.strip() for s in ws if s.strip()]`. */
  function KeepStripped(ws: seq<string>): seq<string>
  {
    if ws == [] then []
    else (if Strip(ws[0]) != "" then [Strip(ws[0])] else []) + KeepStripped(ws[1..])
  }

  /** The raw symbols of `SYMBOLS`: commas become spaces, the text is split
      on whitespace runs, and each stripped, non-empty token is kept. */
  function ParseSymbols(raw: string): seq<string>
  {
    KeepStripped(Words(Replace(raw, ",", " ")))
  }

  /** A token is a non-empty run free of whitespace and commas. */
  predicate Token(t: string)
  {
    t != "" && forall i :: 0 <= i < |t| ==> t[i] != ',' && !IsSpace(t[i])
  }

  /** The strip-and-filter step changes nothing: the symbols are exactly the
      whitespace-separated words of the text with commas turned into
      spaces (a text without commas), each non-empty and free of
      whitespace. */
  lemma ParseSymbolsMeaning(raw: string)
    ensures ParseSymbols(raw) == Words(Replace(raw, ",", " "))
    ensures ',' !in Replace(raw, ",", " ")
    ensures forall k :: 0 <= k < |ParseSymbols(raw)| ==>
      ParseSymbols(raw)[k] != "" && forall c :: c in ParseSymbols(raw)[k] ==> !IsSpace(c)
  {
    ReplaceRemovesChar(raw, ',', " ");
    var ws := Words(Replace(raw, ",", " "));
    forall k | 0 <= k < |ws| ensures ws[k] != "" && Strip(ws[k]) == ws[k] {
      StrippedWord(ws[k]);
    }
    KeepStrippedWords(ws);
  }

  /** Tokens joined by commas are parsed back into the same list. */
  lemma ParseSymbolsRoundTrip(ts: seq<string>)
    requires ts != []
    requires forall k :: 0 <= k < |ts| ==> Token(ts[k])
    ensures ParseSymbols(Join(ts, ",")) == ts
  {
    forall k | 0 <= k < |ts| ensures ',' !in ts[k] {
    }
    SplitJoinChar(ts, ',');
    assert Replace(Join(ts, ","), ",", " ") == Join(ts, " ");
    WordsOfJoin(ts);
    ParseSymbolsMeaning(Join(ts, ","));
  }

  lemma {:induction false} KeepStrippedWords(ws: seq<string>)
    requires forall k :: 0 <= k < |ws| ==> ws[k] != "" && Strip(ws[k]) == ws[k]
    ensures KeepStripped(ws) == ws
  {
    if ws != [] {
      KeepStrippedWords(ws[1..]);
      assert KeepStripped(ws) == [ws[0]] + ws[1..];
    }
  }

  /** A word is its own strip. */
  lemma StrippedWord(w: string)
    requires w != "" && forall c :: c in w ==> !IsSpace(c)
    ensures Strip(w) == w
  {
    assert w[0] in w && w[|w| - 1] in w;
    StripNoSpaceAround(w);
  }

  /** Splitting tokens joined by single spaces gives the tokens back. */
  lemma {:induction false} WordsOfJoin(ts: seq<string>)
    requires ts != []
    requires forall k :: 0 <= k < |ts| ==> Token(ts[k])
    ensures Words(Join(ts, " ")) == ts
    decreases |ts|
  {
    if |ts| == 1 {
      WordsOfToken(ts[0]);
      assert Join(ts, " ") == ts[0];
      SingletonSeq(ts);
    } else {
      WordsJoinStep(ts);
      WordsOfJoin(ts[1..]);
      ConsSeq(ts);
    }
  }

  lemma SingletonSeq<T>(s: seq<T>)
    requires |s| == 1
    ensures s == [s[0]]
  {
  }

  lemma WordsOfToken(t: string)
    requires Token(t)
    ensures Words(t) == [t]
  {
    WordOfToken(t, "");
    assert t + "" == t;
  }

  /** The first token of a space-joined list is its first word. */
  lemma WordsJoinStep(ts: seq<string>)
    requires |ts| > 1 && Token(ts[0])
    ensures Words(Join(ts, " ")) == [ts[0]] + Words(Join(ts[1..], " "))
  {
    var rest := Join(ts[1..], " ");
    JoinCons(ts, " ");
    WordOfToken(ts[0], " " + rest);
    WordsAfterSpace(" " + rest);
    assert (" " + rest)[1..] == rest;
  }

  lemma JoinCons(ts: seq<string>, sep: string)
    requires |ts| > 1
    ensures Join(ts, sep) == ts[0] + (sep + Join(ts[1..], sep))
  {
  }

  /** Leading whitespace does not change the words. */
  lemma WordsAfterSpace(s: string)
    requires s != [] && IsSpace(s[0])
    ensures Words(s) == Words(s[1..])
  {
    assert LStrip(s) == LStrip(s[1..]);
  }

  /** A token followed by nothing or by whitespace is the first word. */
  lemma WordOfToken(t: string, rest: string)
    requires Token(t)
    requires rest == [] || IsSpace(rest[0])
    ensures Words(t + rest) == [t] + Words(rest)
  {
    var s := t + rest;
    assert s[0] == t[0];
    assert LStrip(s) == s;
    forall i | 0 <= i < |t| ensures !IsSpace(s[i]) {
      assert s[i] == t[i];
    }
    WordEndOf(s, |t|);
    assert s[..|t|] == t && s[|t|..] == rest;
  }

  /** The end of the first word is the first whitespace (or the end). */
  lemma {:induction false} WordEndOf(s: string, n: nat)
    requires 0 < n <= |s|
    requires forall i :: 0 <= i < n ==> !IsSpace(s[i])
    requires n == |s| || IsSpace(s[n])
    ensures WordEnd(s) == n
    decreases n
  {
    if n > 1 {
      WordEndOf(s[1..], n - 1);
    }
  }

  // ---------------------------------------------------------------------------
  // Count checks

  datatype Verdict = TooFew | TooMany | Proceed

  /** Fewer than two symbols, or more than four, is refused. */
  function CheckCount(symbols: seq<string>): (v: Verdict)
    ensures v == Proceed <==> 2 <= |symbols| <= 4
    ensures v == TooFew <==> |symbols| < 2
  {
    if |symbols| < 2 then TooFew
    else if |symbols| > 4 then TooMany
    else Proceed
  }

  /** The resolved symbols, one per raw symbol, in order. */
  function Resolved(raw: seq<string>, resolve: string -> string): (symbols: seq<string>)
    ensures |symbols| == |raw| && forall k :: 0 <= k < |raw| ==> symbols[k] == resolve(raw[k])
  {
    seq(|raw|, k requires 0 <= k < |raw| => resolve(raw[k]))
  }

  // ---------------------------------------------------------------------------
  // Analyses and their order

  /** The fields of `trade_decision` the worker reads; None is a missing key. */
  datatype Trade = Trade(
    signal: Option<string>,
    confidence: Option<real>,
    priceUsd: Option<real>,
    shortTerm: Option<string>,
    mediumTerm: Option<string>,
    longTerm: Option<string>)

  /** The dict `run_single_analysis` returns (or the one built when the
      future raised): success with the trade decision, if any, or failure
      with the error text. */
  datatype Analysis = Succeeded(symbol: string, trade: Option<Trade>) | Failed(symbol: string, error: string)

  /** `symbols.index(s)`: the first position of `s`, or |symbols| when absent. */
  function IndexOf(symbols: seq<string>, s: string): (i: nat)
    ensures i <= |symbols|
    ensures i < |symbols| ==> symbols[i] == s
    ensures forall j :: 0 <= j < i ==> symbols[j] != s
  {
    if symbols == [] then 0 else if symbols[0] == s then 0 else 1 + IndexOf(symbols[1..], s)
  }

  /** The sort key, negated so that the stable descending sort is the
      stable ascending sort by position. */
  function PositionKey(symbols: seq<string>): Analysis -> real
  {
    (a: Analysis) => -(IndexOf(symbols, a.symbol) as real)
  }

  /** `results.sort(key=lambda x: symbols.index(x["symbol"]))`. */
  function Reorder(symbols: seq<string>, completed: seq<Analysis>): seq<Analysis>
  {
    Sorting.SortDesc(completed, PositionKey(symbols))
  }

  /** The re-sorted results are the finished ones, rearranged, with the
      positions of their symbols in the input non-decreasing. */
  lemma ReorderMeaning(symbols: seq<string>, completed: seq<Analysis>)
    ensures multiset(Reorder(symbols, completed)) == multiset(completed)
    ensures var r := Reorder(symbols, completed);
      forall i, j :: 0 <= i < j < |r| ==> IndexOf(symbols, r[i].symbol) <= IndexOf(symbols, r[j].symbol)
  {
    var r := Reorder(symbols, completed);
    Sorting.SortDescOrdered(completed, PositionKey(symbols));
    forall i, j | 0 <= i < j < |r| ensures IndexOf(symbols, r[i].symbol) <= IndexOf(symbols, r[j].symbol) {
      assert PositionKey(symbols)(r[i]) >= PositionKey(symbols)(r[j]);
    }
  }

  /** With distinct symbols, whatever order the analyses finish in, the
      re-sorted results are the analyses in input order. */
  lemma ReorderInputOrder(symbols: seq<string>, outcomes: seq<Analysis>, completed: seq<Analysis>)
    requires forall i, j :: 0 <= i < j < |symbols| ==> symbols[i] != symbols[j]
    requires |outcomes| == |symbols| && forall k :: 0 <= k < |symbols| ==> outcomes[k].symbol == symbols[k]
    requires multiset(completed) == multiset(outcomes)
    ensures Reorder(symbols, completed) == outcomes
  {
    ReorderMeaning(symbols, completed);
    var r := Reorder(symbols, completed);
    forall k | 0 <= k < |outcomes| ensures IndexOf(symbols, outcomes[k].symbol) == k {
      PositionOfDistinct(symbols, k);
    }
    SortedByPosition(symbols, r, outcomes);
  }

  /** A sequence ordered by position that holds the same elements as the
      first m outcomes is those outcomes. */
  lemma {:induction false} SortedByPosition(symbols: seq<string>, xs: seq<Analysis>, ys: seq<Analysis>)
    requires forall k :: 0 <= k < |ys| ==> IndexOf(symbols, ys[k].symbol) == k
    requires multiset(xs) == multiset(ys)
    requires forall i, j :: 0 <= i < j < |xs| ==> IndexOf(symbols, xs[i].symbol) <= IndexOf(symbols, xs[j].symbol)
    ensures xs == ys
    decreases |ys|
  {
    assert |xs| == |ys| by {
      assert |multiset(xs)| == |multiset(ys)|;
    }
    if ys != [] {
      var m := |ys| - 1;
      LastByPosition(symbols, xs, ys);
      PrefixMultiset(xs, ys);
      SortedByPosition(symbols, xs[..m], ys[..m]);
      SnocSeq(xs);
      SnocSeq(ys);
    }
  }

  /** Equal multisets with equal last elements have equal multisets of
      the rest. */
  lemma PrefixMultiset<T>(xs: seq<T>, ys: seq<T>)
    requires multiset(xs) == multiset(ys) && |xs| == |ys| > 0 && xs[|xs| - 1] == ys[|ys| - 1]
    ensures multiset(xs[..|xs| - 1]) == multiset(ys[..|ys| - 1])
  {
    var m := |ys| - 1;
    MultisetRemove(xs, m);
    MultisetRemove(ys, m);
    assert xs[..m] + xs[m + 1..] == xs[..m];
    assert ys[..m] + ys[m + 1..] == ys[..m];
    MultisetCancel(multiset(xs[..m]), multiset(ys[..m]), xs[m]);
  }

  /** Taking one element out of a sequence takes it out of its multiset. */
  lemma MultisetRemove<T>(b: seq<T>, j: nat)
    requires j < |b|
    ensures multiset(b) == multiset(b[..j] + b[j + 1..]) + multiset{b[j]}
  {
    assert b == b[..j] + [b[j]] + b[j + 1..];
  }

  lemma MultisetCancel<T>(p: multiset<T>, q: multiset<T>, x: T)
    requires p + multiset{x} == q + multiset{x}
    ensures p == q
  {
    forall y ensures p[y] == q[y] {
      assert (p + multiset{x})[y] == (q + multiset{x})[y];
    }
  }

  /** The last element of such a sequence is the last outcome: it is some
      outcome, so its position is at most m, and the last outcome stands
      at or before it, so its position is at least m. */
  lemma LastByPosition(symbols: seq<string>, xs: seq<Analysis>, ys: seq<Analysis>)
    requires forall k :: 0 <= k < |ys| ==> IndexOf(symbols, ys[k].symbol) == k
    requires multiset(xs) == multiset(ys) && |xs| == |ys| > 0
    requires forall i, j :: 0 <= i < j < |xs| ==> IndexOf(symbols, xs[i].symbol) <= IndexOf(symbols, xs[j].symbol)
    ensures xs[|xs| - 1] == ys[|ys| - 1]
  {
    var m := |ys| - 1;
    var j := Occurrence(ys, xs[m]);
    assert IndexOf(symbols, xs[m].symbol) == j;
    var i := Occurrence(xs, ys[m]);
    assert IndexOf(symbols, xs[i].symbol) == m;
    if i < m {
      assert m <= j;
    }
  }

  /** An index holding an element of the sequence's multiset. */
  lemma Occurrence<T>(s: seq<T>, x: T) returns (j: nat)
    requires x in multiset(s)
    ensures j < |s| && s[j] == x
  {
    assert x in s;
    j :| 0 <= j < |s| && s[j] == x;
  }

  lemma PositionOfDistinct(symbols: seq<string>, k: nat)
    requires forall i, j :: 0 <= i < j < |symbols| ==> symbols[i] != symbols[j]
    requires k < |symbols|
    ensures IndexOf(symbols, symbols[k]) == k
  {
  }

  /** The number of successful analyses. */
  function SuccessCount(results: seq<Analysis>): (n: nat)
    ensures n <= |results|
  {
    if results == [] then 0
    else SuccessCount(results[..|results| - 1]) + (if results[|results| - 1].Succeeded? then 1 else 0)
  }

  /** The count is the size of the list of successes, however ordered. */
  lemma {:induction false} SuccessCountPermutation(a: seq<Analysis>, b: seq<Analysis>)
    requires multiset(a) == multiset(b)
    ensures SuccessCount(a) == SuccessCount(b)
    decreases |a|
  {
    assert |a| == |b| by {
      assert |multiset(a)| == |multiset(b)|;
    }
    if a != [] {
      var n := |a| - 1;
      var j := Occurrence(b, a[n]);
      var b' := b[..j] + b[j + 1..];
      MultisetRemove(a, n);
      MultisetRemove(b, j);
      assert a[..n] + a[n + 1..] == a[..n];
      MultisetCancel(multiset(a[..n]), multiset(b'), a[n]);
      SuccessCountPermutation(a[..n], b');
      SuccessCountRemove(b, j);
    }
  }

  /** Re-sorting the finished analyses keeps their number of successes. */
  lemma ReorderSuccesses(symbols: seq<string>, completed: seq<Analysis>)
    ensures SuccessCount(Reorder(symbols, completed)) == SuccessCount(completed)
  {
    ReorderMeaning(symbols, completed);
    SuccessCountPermutation(Reorder(symbols, completed), completed);
  }

  lemma {:induction false} SuccessCountRemove(b: seq<Analysis>, j: nat)
    requires j < |b|
    ensures SuccessCount(b) == SuccessCount(b[..j] + b[j + 1..]) + (if b[j].Succeeded? then 1 else 0)
    decreases |b|
  {
    var n := |b| - 1;
    if j < n {
      SuccessCountRemove(b[..n], j);
      assert b[..n][..j] + b[..n][j + 1..] == (b[..j] + b[j + 1..])[..n - 1];
      assert (b[..j] + b[j + 1..])[n - 1] == b[n];
    } else {
      assert b[..j] + b[j + 1..] == b[..n];
    }
  }

  // ---------------------------------------------------------------------------
  // format_comparison_result: one block per analysis

  /** The marker emoji of a signal. */
  datatype Marker = Green | Red | Yellow | Black | White

  function MarkerOf(signal: string): Marker
  {
    if signal == "LONG" then Green
    else if signal == "SHORT" then Red
    else if signal == "HOLD" then Yellow
    else if signal == "IGNORE" then Black
    else White
  }

  /** The block shown for one analysis: the decision with its defaults, or
      a "failed" line. */
  datatype Line =
    | Summary(marker: Marker, symbol: string, signal: string, confidence: real, price: real,
              shortTerm: string, mediumTerm: string, longTerm: string)
    | FailedLine(symbol: string)

  function LineOf(a: Analysis): (l: Line)
    ensures l.symbol == a.symbol
    ensures l.FailedLine? <==> a.Failed?
  {
    match a
    case Failed(symbol, _) => FailedLine(symbol)
    case Succeeded(symbol, trade) =>
      var t := trade.GetOr(Trade(None, None, None, None, None, None));
      var signal := t.signal.GetOr("N/A");
      Summary(MarkerOf(signal), symbol, signal, t.confidence.GetOr(0.0), t.priceUsd.GetOr(0.0),
              t.shortTerm.GetOr("?"), t.mediumTerm.GetOr("?"), t.longTerm.GetOr("?"))
  }

  /** The loop that builds the per-asset part of the message: one block per
      result, in order, failed analyses as "failed" lines. */
  method IndividualLines(results: seq<Analysis>) returns (lines: seq<Line>)
    ensures |lines| == |results|
    ensures forall k :: 0 <= k < |results| ==> lines[k] == LineOf(results[k])
  {
    lines := [];
    for i := 0 to |results|
      invariant |lines| == i
      invariant forall k :: 0 <= k < i ==> lines[k] == LineOf(results[k])
    {
      lines := lines + [LineOf(results[i])];
    }
  }

  /** Failed analyses appear as "failed" lines exactly where they stand in
      the results, and a decision without a signal shows "N/A" with the
      neutral marker. */
  lemma LinesMeaning(a: Analysis)
    ensures LineOf(a).FailedLine? <==> a.Failed?
    ensures a.Succeeded? && (a.trade.None? || a.trade.value.signal.None?) ==>
              LineOf(a).signal == "N/A" && LineOf(a).marker == White
  {
  }

  // ---------------------------------------------------------------------------
  // main

  /** The messages `main` sends. */
  datatype Message =
    | TooFewMessage(german: bool)
    | TooManyMessage(german: bool)
    | Working(german: bool, symbols: seq<string>)
    | NotEnoughMessage(german: bool)
    | ComparisonMessage(german: bool, symbols: seq<string>, lines: seq<Line>, comparison: string)

  /** `LANG`, lower-cased, with anything but "de" and "en" read as "de". */
  function IsGerman(lang: string): bool
  {
    var l := Lower(lang);
    !(l == "en")
  }

  /** The oracles of one run: symbol resolution, the order the analyses
      finished in, the outcome of the backend call that writes the
      comparison and whether the final send succeeded. */
  datatype Oracles = Oracles(resolve: string -> string, completed: seq<Analysis>,
                             comparison: GeminiUtils.CallOutcome, sent: bool)

  /** The symbols `main` works on. */
  function SymbolsOf(raw: string, resolve: string -> string): seq<string>
  {
    Resolved(ParseSymbols(raw), resolve)
  }

  /** `main`: refuse a count outside 2 to 4, otherwise announce the work,
      re-sort the finished analyses into input order, refuse fewer than two
      successes, and otherwise send the comparison; 0 exactly when that send
      succeeded. A comparison call that raises is not caught: the process
      ends with status 1 and nothing more is sent. */
  method ComparisonMain(symbolsRaw: string, lang: string, o: Oracles)
    returns (status: int, messages: seq<Message>)
    ensures var symbols := SymbolsOf(symbolsRaw, o.resolve);
      && (|symbols| < 2 ==> status == 1 && messages == [TooFewMessage(IsGerman(lang))])
      && (|symbols| > 4 ==> status == 1 && messages == [TooManyMessage(IsGerman(lang))])
      && (2 <= |symbols| <= 4 ==> 1 <= |messages| <= 2 && messages[0] == Working(IsGerman(lang), symbols))
    ensures var symbols := SymbolsOf(symbolsRaw, o.resolve);
      2 <= |symbols| <= 4 && (SuccessCount(o.completed) < 2 || o.comparison.Returned?) ==> |messages| == 2
    ensures var symbols := SymbolsOf(symbolsRaw, o.resolve);
      2 <= |symbols| <= 4 && SuccessCount(o.completed) < 2 ==>
        status == 1 && messages[1] == NotEnoughMessage(IsGerman(lang))
    ensures var symbols := SymbolsOf(symbolsRaw, o.resolve);
      var results := Reorder(symbols, o.completed);
      2 <= |symbols| <= 4 && SuccessCount(o.completed) >= 2 ==>
        && (o.comparison.Raised? ==> status == 1 && |messages| == 1)
        && (o.comparison.Returned? ==>
              && messages[1].ComparisonMessage?
              && messages[1].lines == seq(|results|, k requires 0 <= k < |results| => LineOf(results[k]))
              && messages[1].comparison == o.comparison.text
              && (status == 0 <==> o.sent))
    ensures status == 0 || status == 1
  {
    var german := IsGerman(lang);
    var raw := ParseSymbols(symbolsRaw);
    var symbols := Resolved(raw, o.resolve);
    var verdict := CheckCount(symbols);
    if verdict == TooFew {
      return 1, [TooFewMessage(german)];
    }
    if verdict == TooMany {
      return 1, [TooManyMessage(german)];
    }
    var results := Reorder(symbols, o.completed);
    ReorderSuccesses(symbols, o.completed);
    var more;
    status, more := Conclude(german, symbols, results, o);
    messages := [Working(german, symbols)] + more;
  }

  /** What `main` does once the analyses are back in input order: "not
      enough" below two successes, nothing more when the comparison call
      raises, else the comparison message, with status 0 exactly when it was
      sent. */
  method Conclude(german: bool, symbols: seq<string>, results: seq<Analysis>, o: Oracles)
    returns (status: int, more: seq<Message>)
    ensures SuccessCount(results) < 2 ==> status == 1 && more == [NotEnoughMessage(german)]
    ensures SuccessCount(results) >= 2 && o.comparison.Raised? ==> status == 1 && more == []
    ensures SuccessCount(results) >= 2 && o.comparison.Returned? ==>
              && |more| == 1 && more[0].ComparisonMessage?
              && more[0] == ComparisonMessage(german, symbols, more[0].lines, o.comparison.text)
              && more[0].lines == seq(|results|, k requires 0 <= k < |results| => LineOf(results[k]))
              && (status == 0 <==> o.sent)
    ensures status == 0 || status == 1
  {
    if SuccessCount(results) < 2 {
      return 1, [NotEnoughMessage(german)];
    }
    if o.comparison.Raised? {
      return 1, [];
    }
    var lines := IndividualLines(results);
    assert lines == seq(|results|, k requires 0 <= k < |results| => LineOf(results[k]));
    more := [ComparisonMessage(german, symbols, lines, o.comparison.text)];
    status := if o.sent then 0 else 1;
  }
}
