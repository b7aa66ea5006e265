/** `src/bot/interactive_bot.py`: the argument handling of the Telegram
    command handlers — the SYMBOL:AMOUNT parser of `/portfolio`, the budget
    argument of `/analyze`, `/long` and `/short`, and the argument check of
    `/compare`. The commands the handlers then run, the Telegram replies and
    `float()` are outside; `float()` is the parameter `toFloat`. */
module InteractiveBot {
  import opened Wrappers
  import opened Text
  import opened Dicts
  import GeminiUtils

  // ---------------------------------------------------------------------------
  // /portfolio SYMBOL:AMOUNT ...

  /** The class `[A-Za-z0-9\.\-]`. */
  predicate IsSymbolChar(c: char)
  {
    'A' <= c <= 'Z' || 'a' <= c <= 'z' || '0' <= c <= '9' || c == '.' || c == '-'
  }

  /** The end of the run of symbol characters starting at `i`. */
  function SymbolRunEnd(s: string, i: nat): (e: nat)
    requires i <= |s|
    ensures i <= e <= |s|
    ensures forall k :: i <= k < e ==> IsSymbolChar(s[k])
    ensures e < |s| ==> !IsSymbolChar(s[e])
    decreases |s| - i
  {
    if i < |s| && IsSymbolChar(s[i]) then SymbolRunEnd(s, i + 1) else i
  }

  /** The digit run `s[a..b]`. */
  function DigitsAt(s: string, a: nat, b: nat): (ds: string)
    requires a <= b <= |s| && forall k :: a <= k < b ==> IsDigit(s[k])
    ensures ds == s[a..b] && forall c :: c in ds ==> IsDigit(c)
  {
    s[a..b]
  }

  /** `float()` of a match of `\d+(?:\.\d+)?`, as the exact decimal value. */
  function Amount(whole: string, fraction: string): (v: real)
    requires whole != [] && forall c :: c in whole ==> IsDigit(c)
    requires forall c :: c in fraction ==> IsDigit(c)
    ensures v >= 0.0
    ensures Some(v) == GeminiUtils.DecimalOf(whole, fraction)
  {
    GeminiUtils.DecimalOf(whole, fraction).value
  }

  /** `re.match(r"([A-Za-z0-9\.\-]+):(\d+(?:\.\d+)?)", arg)`: the longest
      symbol run at the start, a colon, the longest digit run, and a
      fraction when a dot and at least one digit follow; the symbol is
      upper-cased, the amount read as a number, and whatever follows the
      match is ignored. None is a failed match. */
  function ParseHolding(arg: string): (r: Option<Entry>)
    ensures r.Some? ==> r.value.value >= 0.0 && r.value.key != ""
  {
    var e := SymbolRunEnd(arg, 0);
    if e == 0 || e == |arg| || arg[e] != ':' then None
    else
      var d := GeminiUtils.DigitRunEnd(arg, e + 1);
      if d == e + 1 then None
      else
        var fraction := if d + 1 < |arg| && arg[d] == '.' && IsDigit(arg[d + 1])
          then DigitsAt(arg, d + 1, GeminiUtils.DigitRunEnd(arg, d + 1)) else "";
        Some(Entry(Upper(arg[..e]), Amount(DigitsAt(arg, e + 1, d), fraction)))
  }

  /** A match needs a colon right after a non-empty symbol run and a digit
      right after the colon. */
  lemma HoldingShape(arg: string) returns (i: nat)
    requires ParseHolding(arg).Some?
    ensures 0 < i < |arg| - 1 && arg[i] == ':' && IsDigit(arg[i + 1])
    ensures forall k :: 0 <= k < i ==> IsSymbolChar(arg[k])
    ensures ParseHolding(arg).value.key == Upper(arg[..i])
  {
    i := SymbolRunEnd(arg, 0);
  }

  /** A symbol, a colon and a whole number, followed by nothing or by text
      that cannot continue the number, is read back as that symbol,
      upper-cased, and that number. */
  lemma HoldingRoundTrip(symbol: string, n: nat, rest: string)
    requires symbol != "" && forall k :: 0 <= k < |symbol| ==> IsSymbolChar(symbol[k])
    requires rest == [] || (!IsDigit(rest[0]) && rest[0] != '.')
    ensures ParseHolding(symbol + ":" + NatToString(n) + rest) == Some(Entry(Upper(symbol), n as real))
  {
    var digits := NatToString(n);
    var arg := symbol + ":" + digits + rest;
    var e := |symbol|;
    var d := e + 1 + |digits|;
    assert arg[..e] == symbol && arg[e] == ':';
    SymbolRunAt(arg, symbol);
    forall k | e + 1 <= k < d ensures IsDigit(arg[k]) {
      assert arg[k] == digits[k - e - 1];
      assert digits[k - e - 1] in digits;
    }
    assert d < |arg| ==> arg[d] == rest[0];
    DigitRunFrom(arg, e + 1, d);
    assert arg[e + 1..d] == digits;
    ParseWholeNumber(arg, e, d);
    GeminiUtils.DigitsValueOfNat(n);
  }

  /** A match whose number has no fraction. */
  lemma ParseWholeNumber(arg: string, e: nat, d: nat)
    requires 0 < e < |arg| && SymbolRunEnd(arg, 0) == e && arg[e] == ':'
    requires e + 1 < d <= |arg| && GeminiUtils.DigitRunEnd(arg, e + 1) == d
    requires d < |arg| ==> arg[d] != '.'
    ensures ParseHolding(arg) == Some(Entry(Upper(arg[..e]), GeminiUtils.DigitsValue(arg[e + 1..d]) as real))
  {
    var whole := DigitsAt(arg, e + 1, d);
    assert !(d + 1 < |arg| && arg[d] == '.');
    GeminiUtils.WholeDecimal(whole);
  }

  /** The symbol run of `symbol + ":" + ...` ends at the colon. */
  lemma SymbolRunAt(arg: string, symbol: string)
    requires |symbol| < |arg| && arg[..|symbol|] == symbol && arg[|symbol|] == ':'
    requires forall k :: 0 <= k < |symbol| ==> IsSymbolChar(symbol[k])
    ensures SymbolRunEnd(arg, 0) == |symbol|
  {
    SymbolRunFrom(arg, 0, |symbol|);
  }

  lemma {:induction false} SymbolRunFrom(s: string, i: nat, e: nat)
    requires i <= e < |s| && !IsSymbolChar(s[e])
    requires forall k :: i <= k < e ==> IsSymbolChar(s[k])
    ensures SymbolRunEnd(s, i) == e
    decreases e - i
  {
    if i < e {
      SymbolRunFrom(s, i + 1, e);
    }
  }

  lemma {:induction false} DigitRunFrom(s: string, i: nat, e: nat)
    requires i <= e <= |s| && (e < |s| ==> !IsDigit(s[e]))
    requires forall k :: i <= k < e ==> IsDigit(s[k])
    ensures GeminiUtils.DigitRunEnd(s, i) == e
    decreases e - i
  {
    if i < e {
      DigitRunFrom(s, i + 1, e);
    }
  }

  /** The portfolio built from the arguments, left to right, with the
      holding parser `parse`: each holding is put into the dict, so a
      repeated symbol keeps its last amount; the first argument that does
      not parse is the error. */
  function PortfolioOf(args: seq<string>, parse: string -> Option<Entry>): Result<seq<Entry>, string>
  {
    if args == [] then Ok([])
    else
      match PortfolioOf(args[..|args| - 1], parse)
      case Err(a) => Err(a)
      case Ok(p) =>
        match parse(args[|args| - 1])
        case None => Err(args[|args| - 1])
        case Some(h) => Ok(Put(p, h.key, h.value))
  }

  /** Once an argument has failed, later arguments change nothing. */
  lemma {:induction false} PortfolioErrorSticks(args: seq<string>, parse: string -> Option<Entry>, n: nat)
    requires n <= |args| && PortfolioOf(args[..n], parse).Err?
    ensures PortfolioOf(args, parse) == PortfolioOf(args[..n], parse)
    decreases |args| - n
  {
    if n == |args| {
      assert args[..n] == args;
    } else {
      var m := |args| - 1;
      assert args[..m][..n] == args[..n];
      PortfolioErrorSticks(args[..m], parse, n);
    }
  }

  /** The arguments are accepted exactly when every one of them parses. */
  lemma {:induction false} PortfolioAccepted(args: seq<string>, parse: string -> Option<Entry>)
    ensures PortfolioOf(args, parse).Ok? <==> forall i :: 0 <= i < |args| ==> parse(args[i]).Some?
  {
    if args != [] {
      var m := |args| - 1;
      PortfolioAccepted(args[..m], parse);
      assert forall i :: 0 <= i < m ==> args[..m][i] == args[i];
    }
  }

  /** The error names the first argument that does not parse. */
  lemma PortfolioFirstBad(args: seq<string>, parse: string -> Option<Entry>, i: nat)
    requires i < |args| && parse(args[i]).None?
    requires forall j :: 0 <= j < i ==> parse(args[j]).Some?
    ensures PortfolioOf(args, parse) == Err(args[i])
  {
    var pre := args[..i];
    PortfolioAccepted(pre, parse);
    assert forall j :: 0 <= j < |pre| ==> pre[j] == args[j];
    assert args[..i + 1][..i] == pre;
    PortfolioErrorSticks(args, parse, i + 1);
  }

  /** For an accepted list, a symbol's amount is that of the last argument
      naming it. */
  lemma {:induction false} PortfolioLastWins(args: seq<string>, parse: string -> Option<Entry>, i: nat, key: string, amount: real)
    requires PortfolioOf(args, parse).Ok?
    requires i < |args| && parse(args[i]) == Some(Entry(key, amount))
    requires forall j :: i < j < |args| ==> parse(args[j]).Some? && parse(args[j]).value.key != key
    ensures Lookup(PortfolioOf(args, parse).value, key) == Some(amount)
  {
    var m := |args| - 1;
    var h := parse(args[m]).value;
    LookupPut(PortfolioOf(args[..m], parse).value, h.key, h.value, key);
    if i < m {
      PortfolioLastWins(args[..m], parse, i, key, amount);
    }
  }

  /** A symbol no argument names is not in the portfolio. */
  lemma {:induction false} PortfolioAbsent(args: seq<string>, parse: string -> Option<Entry>, key: string)
    requires PortfolioOf(args, parse).Ok?
    requires forall j :: 0 <= j < |args| ==> parse(args[j]).Some? && parse(args[j]).value.key != key
    ensures Lookup(PortfolioOf(args, parse).value, key) == None
  {
    if args != [] {
      var m := |args| - 1;
      var h := parse(args[m]).value;
      LookupPut(PortfolioOf(args[..m], parse).value, h.key, h.value, key);
      PortfolioAbsent(args[..m], parse, key);
    }
  }

  /** An accepted, non-empty argument list gives a non-empty portfolio. */
  lemma PortfolioNonEmpty(args: seq<string>, parse: string -> Option<Entry>)
    requires args != [] && PortfolioOf(args, parse).Ok?
    ensures PortfolioOf(args, parse).value != []
  {
  }

  /** The loop of `_handle_portfolio`: the dict is filled argument by
      argument, and the first argument that does not match ends the
      handler. */
  method ParsePortfolio(args: seq<string>) returns (r: Result<seq<Entry>, string>)
    ensures r == PortfolioOf(args, ParseHolding)
  {
    var portfolio: seq<Entry> := [];
    var i := 0;
    while i < |args|
      invariant i <= |args|
      invariant PortfolioOf(args[..i], ParseHolding) == Ok(portfolio)
    {
      var arg := args[i];
      assert args[..i + 1][..i] == args[..i];
      var h := ParseHolding(arg);
      if h.None? {
        PortfolioErrorSticks(args, ParseHolding, i + 1);
        return Err(arg);
      }
      portfolio := Put(portfolio, h.value.key, h.value.value);
      i := i + 1;
    }
    assert args[..i] == args;
    r := Ok(portfolio);
  }

  /** What `/portfolio` answers. */
  datatype PortfolioReply =
    | ShowCurrent
    | InvalidFormat(arg: string)
    | NoPortfolio
    | SetTo(portfolio: seq<Entry>)

  function PortfolioReplyOf(args: seq<string>): PortfolioReply
  {
    if args == [] then ShowCurrent
    else
      match PortfolioOf(args, ParseHolding)
      case Err(a) => InvalidFormat(a)
      case Ok(p) => if p == [] then NoPortfolio else SetTo(p)
  }

  /** `_handle_portfolio`: no arguments shows the stored portfolio, a
      malformed argument is reported, and otherwise the parsed portfolio is
      stored. */
  method HandlePortfolio(args: seq<string>) returns (reply: PortfolioReply)
    ensures reply == PortfolioReplyOf(args)
  {
    if args == [] {
      return ShowCurrent;
    }
    var parsed := ParsePortfolio(args);
    if parsed.Err? {
      return InvalidFormat(parsed.error);
    }
    if parsed.value == [] {
      return NoPortfolio;
    }
    reply := SetTo(parsed.value);
  }

  /** The "no valid portfolio" reply is never given: with arguments, either
      one of them is malformed or the portfolio holds at least one entry. */
  lemma NoPortfolioUnreachable(args: seq<string>)
    ensures PortfolioReplyOf(args) != NoPortfolio
  {
    if args != [] && PortfolioOf(args, ParseHolding).Ok? {
      PortfolioNonEmpty(args, ParseHolding);
    }
  }

  // ---------------------------------------------------------------------------
  // /analyze, /long, /short: symbol and budget

  /** `arg.replace("€", "").replace(",", ".")`. */
  function BudgetText(arg: string): string
  {
    Replace(Replace(arg, "€", ""), ",", ".")
  }

  /** The text handed to `float()` holds no euro sign and no comma. */
  lemma BudgetTextFree(arg: string)
    ensures '€' !in BudgetText(arg) && ',' !in BudgetText(arg)
  {
    ReplaceRemovesChar(arg, '€', "");
    ReplaceRemovesChar(Replace(arg, "€", ""), ',', ".");
    ReplaceKeepsAbsent(Replace(arg, "€", ""), ",", ".", '€');
  }

  /** Replacing by text without `c` cannot introduce `c`. */
  lemma ReplaceKeepsAbsent(s: string, pat: string, repl: string, c: char)
    requires |pat| > 0 && c !in s && c !in repl
    ensures c !in Replace(s, pat, repl)
  {
    var parts := Split(s, pat);
    forall k | 0 <= k < |parts| ensures c !in parts[k] {
      SplitPiecesIn(s, pat, k, c);
    }
    JoinFree(parts, repl, c);
  }

  /** A piece of a split holds only characters of the text. */
  lemma {:induction false} SplitPiecesIn(s: string, sep: string, k: nat, c: char)
    requires |sep| > 0 && c !in s && k < |Split(s, sep)|
    ensures c !in Split(s, sep)[k]
    decreases |s|
  {
    var i := Find(s, sep);
    if i >= 0 && k > 0 {
      assert c !in s[i + |sep|..];
      SplitPiecesIn(s[i + |sep|..], sep, k - 1, c);
    }
  }

  /** A budget without euro sign or comma is handed to `float()` as it is. */
  lemma BudgetTextClean(arg: string)
    requires '€' !in arg && ',' !in arg
    ensures BudgetText(arg) == arg
  {
    ContainsChar(arg, '€');
    ReplaceAbsent(arg, "€", "");
    ContainsChar(arg, ',');
    ReplaceAbsent(arg, ",", ".");
  }

  /** What `/analyze` does with its arguments. */
  datatype AnalyzeCommand =
    | AnalyzeUsage
    | InvalidBudget(arg: string)
    | RunAnalyze(symbol: string, budget: Option<real>)

  /** `_handle_analyze`: a symbol is required, and a second argument that is
      not a number rejects the command. */
  function Analyze(args: seq<string>, toFloat: string -> Option<real>): (c: AnalyzeCommand)
    ensures c == AnalyzeUsage <==> args == []
    ensures c.InvalidBudget? <==> |args| > 1 && toFloat(BudgetText(args[1])).None?
    ensures c.InvalidBudget? ==> c.arg == args[1]
    ensures c.RunAnalyze? ==>
      c.symbol == Upper(args[0]) && c.budget == (if |args| > 1 then toFloat(BudgetText(args[1])) else None)
  {
    if args == [] then AnalyzeUsage
    else if |args| > 1 && toFloat(BudgetText(args[1])).None? then InvalidBudget(args[1])
    else RunAnalyze(Upper(args[0]), if |args| > 1 then toFloat(BudgetText(args[1])) else None)
  }

  /** What `/long` and `/short` do with their arguments. */
  datatype KnockoutCommand =
    | KnockoutUsage(direction: string)
    | RunKnockout(symbol: string, direction: string, budget: Option<real>)

  /** `_handle_knockout`: a symbol is required; a budget that is not a
      number is dropped. */
  function Knockout(args: seq<string>, direction: string, toFloat: string -> Option<real>): (c: KnockoutCommand)
    ensures c.KnockoutUsage? <==> args == []
    ensures c.direction == direction
  {
    if args == [] then KnockoutUsage(direction)
    else RunKnockout(Upper(args[0]), direction, if |args| > 1 then toFloat(BudgetText(args[1])) else None)
  }

  /** The knockout commands read the symbol and budget as `/analyze` does,
      but where `/analyze` rejects the budget they go on without one. */
  lemma KnockoutAgreesWithAnalyze(args: seq<string>, direction: string, toFloat: string -> Option<real>)
    ensures Analyze(args, toFloat).RunAnalyze? ==>
      Knockout(args, direction, toFloat) ==
        RunKnockout(Analyze(args, toFloat).symbol, direction, Analyze(args, toFloat).budget)
    ensures Analyze(args, toFloat).InvalidBudget? ==>
      Knockout(args, direction, toFloat) == RunKnockout(Upper(args[0]), direction, None)
    ensures Analyze(args, toFloat).AnalyzeUsage? <==> Knockout(args, direction, toFloat).KnockoutUsage?
  {
  }

  // ---------------------------------------------------------------------------
  // /compare

  datatype CompareCommand = CompareUsage | RunCompare(first: string, second: string)

  /** `_handle_compare`: two symbols are required (further arguments are
      ignored); both are upper-cased. */
  function Compare(args: seq<string>): (c: CompareCommand)
    ensures c.CompareUsage? <==> |args| < 2
    ensures c.RunCompare? ==> c.first == Upper(args[0]) && c.second == Upper(args[1])
  {
    if |args| < 2 then CompareUsage else RunCompare(Upper(args[0]), Upper(args[1]))
  }
}
