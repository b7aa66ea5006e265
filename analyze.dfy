/** `src/bot/commands/analyze.py`: the `/analyze` reply built from an
    analysis result. The signal read from the decision text, the decision
    cut to 1500 characters, and the position sizing shown when a budget is
    given. Emoji, wording and number formatting are not modelled. */
module Analyze {
  import opened Wrappers
  import opened JsonValue
  import opened Text
  import opened Dicts
  import UserStates
  import Compare

  /** How many characters of the decision the signal is read from. */
  const SignalWindow: nat := 100
  /** How much of the decision the reply shows. */
  const AnalysisLength: nat := 1500

  /** `text[:n]` for a possibly negative `n`, which counts from the end. */
  function SliceTo(text: string, n: int): (r: string)
    ensures 0 <= n ==> r == Take(text, n)
    ensures n < 0 ==> r == text[..if |text| + n >= 0 then |text| + n else 0]
  {
    if n >= 0 then Take(text, n as nat)
    else if |text| + n >= 0 then text[..|text| + n] else []
  }

  /** `_truncate(text, max_length)`. */
  function Truncate(text: string, maxLength: nat): string
  {
    if |text| <= maxLength then text else SliceTo(text, maxLength - 3) + "..."
  }

  /** A text that fits is shown whole. A longer one keeps its first
      `max_length - 3` characters and ends in "...", so that (for a limit of
      at least 3) the result is exactly `max_length` long; truncating again
      changes nothing. */
  lemma TruncateFits(text: string, maxLength: nat)
    ensures |text| <= maxLength ==> Truncate(text, maxLength) == text
    ensures 3 <= maxLength < |text| ==>
      var r := Truncate(text, maxLength);
      |r| == maxLength && r[..maxLength - 3] == text[..maxLength - 3]
      && r[maxLength - 3..] == "..."
    ensures 3 <= maxLength ==> Truncate(Truncate(text, maxLength), maxLength) == Truncate(text, maxLength)
  {
    if 3 <= maxLength < |text| {
      var r := Truncate(text, maxLength);
      assert r == text[..maxLength - 3] + "...";
      assert r[..maxLength - 3] == text[..maxLength - 3];
    }
  }

  /** The sizing block: a recommended position of 30 to 50 % of the budget
      and, at the profile's default stop loss, the risk of the larger one. */
  datatype PositionSizing = PositionSizing(
    budget: real,
    positionLow: real,
    positionHigh: real,
    stopLossPct: int,
    maxRisk: real,
    profile: string)

  /** Present only when the budget is given and non-zero. */
  function SizingOf(budget: Option<real>, user: UserStates.UserState): (r: Option<PositionSizing>)
    ensures r.Some? <==> budget.Some? && budget.value != 0.0
    ensures r.Some? ==>
      && r.value.budget == budget.value
      && r.value.stopLossPct == UserStates.RiskSettingsOf(user).defaultStopLossPct
      && r.value.profile == Capitalize(user.riskProfile)
  {
    match budget
    case None => None
    case Some(b) =>
      if b == 0.0 then None
      else Some(SizingFor(b, UserStates.RiskSettingsOf(user).defaultStopLossPct, Capitalize(user.riskProfile)))
  }

  /** The sizing block of a budget `b` under a stop loss of `stop` %. */
  function SizingFor(b: real, stop: int, profile: string): PositionSizing
  {
    PositionSizing(b, b * 0.3, b * 0.5, stop, Percent(b * 0.5, stop), profile)
  }

  /** `x * (pct / 100)`: `pct` percent of `x`. */
  function Percent(x: real, pct: int): real
  {
    x * (pct as real / 100.0)
  }

  /** For a positive budget the range runs from 30 % to 50 % of it, and the
      risk is the larger position times the stop loss; with every profile's
      stop loss at most 25 %, the risk is positive and at most an eighth of
      the budget. */
  lemma SizingBounds(budget: real, user: UserStates.UserState)
    requires 0.0 < budget
    ensures var z := SizingOf(Some(budget), user).value;
      0.0 < z.positionLow < z.positionHigh < budget
      && z.maxRisk == Percent(z.positionHigh, z.stopLossPct)
      && 0.0 < z.maxRisk <= budget / 8.0
  {
    UserStates.StopLossRange(user);
    SizingArith(budget, UserStates.RiskSettingsOf(user).defaultStopLossPct, Capitalize(user.riskProfile));
  }

  /** The arithmetic behind the sizing bounds. */
  lemma SizingArith(b: real, stop: int, profile: string)
    requires 0.0 < b && 5 <= stop <= 25
    ensures var z := SizingFor(b, stop, profile);
      0.0 < z.positionLow < z.positionHigh < b
      && z.maxRisk == Percent(z.positionHigh, z.stopLossPct)
      && 0.0 < z.maxRisk <= b / 8.0
  {
    var f := stop as real / 100.0;
    var high := b * 0.5;
    assert 0.05 <= f <= 0.25 && SizingFor(b, stop, profile).maxRisk == high * f;
    MulMono(f, 0.25, high);
    MulStrict(0.0, f, high);
    assert high * f == f * high;
  }

  /** The values the `/analyze` reply shows. */
  datatype Reply = Reply(
    signal: Compare.Signal,
    symbol: string,
    analysis: string,
    sizing: Option<PositionSizing>)

  /** `_format_result`: a `final_trade_decision` that is not a string (a
      missing one counts as "") has no `upper` and raises. */
  function FormatResult(symbol: string, result: map<string, Json>, user: UserStates.UserState,
                        budget: Option<real>): (r: Result<Reply, PyError>)
    ensures var d := Get(result, "final_trade_decision", JStr(""));
      (r.Err? <==> !d.JStr?)
      && (r.Ok? ==>
            && r.value.signal == Compare.DecisionSignal(d.s, SignalWindow)
            && r.value.analysis == Truncate(d.s, AnalysisLength)
            && r.value.sizing == SizingOf(budget, user)
            && r.value.symbol == symbol)
  {
    match Get(result, "final_trade_decision", JStr(""))
    case JStr(decision) =>
      Ok(Reply(Compare.DecisionSignal(decision, SignalWindow), symbol,
               Truncate(decision, AnalysisLength), SizingOf(budget, user)))
    case _ => Err(AttributeError)
  }

  /** A missing decision gives a HOLD with an empty analysis; the signal
      only depends on the first 100 characters, whatever their case, and the
      analysis is never longer than 1500 characters. */
  lemma ReplyShape(symbol: string, result: map<string, Json>, user: UserStates.UserState,
                   budget: Option<real>)
    ensures "final_trade_decision" !in result ==>
      FormatResult(symbol, result, user, budget) == Ok(Reply(Compare.HoldSignal, symbol, "", SizingOf(budget, user)))
    ensures FormatResult(symbol, result, user, budget).Ok? ==>
      var d := Get(result, "final_trade_decision", JStr("")).s;
      && FormatResult(symbol, result, user, budget).value.signal
         == Compare.DecisionSignal(Lower(Take(d, SignalWindow)), SignalWindow)
      && |FormatResult(symbol, result, user, budget).value.analysis| <= AnalysisLength
  {
    if "final_trade_decision" !in result {
      assert Take(Upper(""), SignalWindow) == "";
      assert !Contains("", "BUY") && !Contains("", "SELL") && !Contains("", "SHORT");
    }
    if FormatResult(symbol, result, user, budget).Ok? {
      var d := Get(result, "final_trade_decision", JStr("")).s;
      Compare.DecisionSignalReadsHead(d, SignalWindow);
      Compare.DecisionSignalReadsHead(Take(d, SignalWindow), SignalWindow);
      TruncateFits(d, AnalysisLength);
    }
  }
}
