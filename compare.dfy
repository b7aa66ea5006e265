/** `src/bot/commands/compare.py`: the returns computed from a year of
    closing prices, the signal read from each analysis, the scores of the
    two stocks, the winner and the recommendation. */
module Compare {
  import opened Wrappers
  import opened Text

  // ---------------------------------------------------------------------------
  // _get_stock_metrics: returns

  /** `((current / past) - 1) * 100`; a zero past price gives an infinite
      or undefined value in floating point, which is `None` here. */
  function PctChange(current: real, past: real): (r: Option<real>)
    ensures past == 0.0 <==> r.None?
    ensures r.Some? && past > 0.0 ==> (r.value > 0.0 <==> current > past) && (r.value == 0.0 <==> current == past)
  {
    if past == 0.0 then None
    else
      RatioSign(current, past);
      Some((current / past - 1.0) * 100.0)
  }

  lemma RatioSign(current: real, past: real)
    requires past != 0.0
    ensures past > 0.0 ==> ((current / past - 1.0) * 100.0 > 0.0 <==> current > past)
    ensures (current / past - 1.0) * 100.0 == 0.0 <==> current == past
  {
    var q := current / past;
    assert q * past == current;
    if past > 0.0 && q > 1.0 {
      assert q * past > 1.0 * past;
    }
    if past > 0.0 && q <= 1.0 {
      assert q * past <= 1.0 * past;
    }
  }

  /** The one-month, three-month and one-year returns in percent. */
  datatype Returns = Returns(month: Option<real>, quarter: Option<real>, year: Option<real>)

  /** The returns over a history of daily closes, latest last: the close 22
      and 66 entries back when the history is longer than that, and the
      first close when it is longer than 200; otherwise the current price
      itself, which gives 0%. An empty history is a ValueError. */
  function ReturnsOf(closes: seq<real>): (r: Result<Returns, PyError>)
    ensures closes == [] <==> r.Err?
    ensures r.Err? ==> r.error == ValueError
    ensures r.Ok? ==>
              var n := |closes|;
              var current := closes[n - 1];
              && r.value.month == PctChange(current, if n > 22 then closes[n - 22] else current)
              && r.value.quarter == PctChange(current, if n > 66 then closes[n - 66] else current)
              && r.value.year == PctChange(current, if n > 200 then closes[0] else current)
  {
    if closes == [] then Err(ValueError)
    else
      var n := |closes|;
      var current := closes[n - 1];
      var month := if n > 22 then closes[n - 22] else current;
      var quarter := if n > 66 then closes[n - 66] else current;
      var year := if n > 200 then closes[0] else current;
      Ok(Returns(PctChange(current, month), PctChange(current, quarter), PctChange(current, year)))
  }

  /** A history of at most 22 closes shows no movement over any horizon
      (for a non-zero last price); one of more than 200 compares the last
      close with the first. */
  lemma ShortHistoryIsFlat(closes: seq<real>)
    requires 0 < |closes| <= 22 && closes[|closes| - 1] != 0.0
    ensures ReturnsOf(closes) == Ok(Returns(Some(0.0), Some(0.0), Some(0.0)))
  {
    var current := closes[|closes| - 1];
    assert PctChange(current, current) == Some(0.0) by {
      assert current / current == 1.0;
    }
  }

  lemma YearReturnSign(closes: seq<real>)
    requires |closes| > 200 && closes[0] > 0.0
    ensures ReturnsOf(closes).value.year.Some?
    ensures ReturnsOf(closes).value.year.value > 0.0 <==> closes[|closes| - 1] > closes[0]
  {
  }

  // ---------------------------------------------------------------------------
  // _format_comparison: signals and winner

  datatype Signal = BuySignal | SellSignal | HoldSignal

  /** How many characters of the decision the comparison reads. */
  const DecisionWindow: nat := 200

  /** The signal of an analysis: its decision text upper-cased and cut to
      `window` characters; BUY if it mentions BUY, else SELL if it mentions
      SELL or SHORT, else HOLD. The comparison reads 200 characters, the
      `/analyze` reply 100. */
  function DecisionSignal(decision: string, window: nat): Signal
  {
    var head := Take(Upper(decision), window);
    if Contains(head, "BUY") then BuySignal
    else if Contains(head, "SELL") || Contains(head, "SHORT") then SellSignal
    else HoldSignal
  }

  /** Only the first `window` characters of the decision matter, and their
      letter case does not. */
  lemma DecisionSignalReadsHead(decision: string, window: nat)
    ensures DecisionSignal(decision, window) == DecisionSignal(Take(decision, window), window)
    ensures DecisionSignal(Lower(decision), window) == DecisionSignal(decision, window)
  {
    UpperTake(decision, window);
    assert Take(Take(Upper(decision), window), window) == Take(Upper(decision), window);
    UpperOfLower(decision);
  }

  /** A decision that mentions BUY within the window is a BUY, even when it
      also mentions SELL. */
  lemma BuyWins(decision: string, window: nat)
    requires |decision| <= window && Contains(Upper(decision), "BUY")
    ensures DecisionSignal(decision, window) == BuySignal
  {
    assert Take(Upper(decision), window) == Upper(decision);
  }

  /** The outcome above the two columns. */
  datatype Winner = FirstSymbol | SecondSymbol | Tie

  function WinnerOf(score1: int, score2: int): (w: Winner)
    ensures w == FirstSymbol <==> score1 > score2
    ensures w == SecondSymbol <==> score2 > score1
    ensures w == Tie <==> score1 == score2
  {
    if score1 > score2 then FirstSymbol else if score2 > score1 then SecondSymbol else Tie
  }

  // ---------------------------------------------------------------------------
  // _calculate_scores

  /** The metrics the scores compare; a missing P/E is `None`, and a
      missing dividend yield is 0. */
  datatype Metrics = Metrics(return1y: real, return3m: real, return1m: real, pe: Option<real>, dividendYield: real)

  /** `pe or 100`: a missing or zero P/E counts as 100. */
  function PeOrDefault(pe: Option<real>): real
  {
    if pe.None? || pe.value == 0.0 then 100.0 else pe.value
  }

  /** Who gets the points of one criterion. */
  datatype Side = First | Second | Neither

  /** Higher is better, and a tie goes to the second stock. */
  function Higher(a: real, b: real): Side
  {
    if a > b then First else Second
  }

  /** Lower P/E is better, and an equal P/E gives nobody the points. */
  function LowerPe(pe1: real, pe2: real): Side
  {
    if pe1 < pe2 then First else if pe2 < pe1 then Second else Neither
  }

  /** The five criteria with their weights: 1Y return 15, 3M return 15, 1M
      return 10, P/E 20 and dividend 10. */
  function Awards(d1: Metrics, d2: Metrics): seq<(Side, nat)>
  {
    [(Higher(d1.return1y, d2.return1y), 15),
     (Higher(d1.return3m, d2.return3m), 15),
     (Higher(d1.return1m, d2.return1m), 10),
     (LowerPe(PeOrDefault(d1.pe), PeOrDefault(d2.pe)), 20),
     (Higher(d1.dividendYield, d2.dividendYield), 10)]
  }

  /** What each criterion gives a side. */
  function Share(side: Side, award: (Side, nat)): nat
  {
    if award.0 == side then award.1 else 0
  }

  /** The points a side collects. */
  function PointsTo(side: Side, awards: seq<(Side, nat)>): nat
  {
    if awards == [] then 0
    else Share(side, awards[0]) + PointsTo(side, awards[1..])
  }

  /** The points of a side, criterion by criterion. */
  lemma PointsOfAwards(d1: Metrics, d2: Metrics)
    ensures var a := Awards(d1, d2);
            forall side :: PointsTo(side, a) == Share(side, a[0]) + Share(side, a[1]) + Share(side, a[2])
                                                + Share(side, a[3]) + Share(side, a[4])
  {
    var a := Awards(d1, d2);
    var a1: seq<(Side, nat)> := a[1..];
    var a2: seq<(Side, nat)> := a1[1..];
    var a3: seq<(Side, nat)> := a2[1..];
    var a4: seq<(Side, nat)> := a3[1..];
    var a5: seq<(Side, nat)> := a4[1..];
    assert a5 == [];
    forall side
      ensures PointsTo(side, a) == Share(side, a[0]) + Share(side, a[1]) + Share(side, a[2])
                                   + Share(side, a[3]) + Share(side, a[4])
    {
      assert PointsTo(side, a4) == Share(side, a[4]);
      assert PointsTo(side, a3) == Share(side, a[3]) + PointsTo(side, a4);
      assert PointsTo(side, a2) == Share(side, a[2]) + PointsTo(side, a3);
      assert PointsTo(side, a1) == Share(side, a[1]) + PointsTo(side, a2);
    }
  }

  /** The scores: 50 each, plus the points won. */
  function Scores(d1: Metrics, d2: Metrics): (int, int)
  {
    (50 + PointsTo(First, Awards(d1, d2)), 50 + PointsTo(Second, Awards(d1, d2)))
  }

  /** `_calculate_scores`, criterion after criterion. */
  method CalculateScores(d1: Metrics, d2: Metrics) returns (score1: int, score2: int)
    ensures (score1, score2) == Scores(d1, d2)
  {
    PointsOfAwards(d1, d2);
    score1, score2 := 50, 50;
    if d1.return1y > d2.return1y {
      score1 := score1 + 15;
    } else {
      score2 := score2 + 15;
    }
    if d1.return3m > d2.return3m {
      score1 := score1 + 15;
    } else {
      score2 := score2 + 15;
    }
    if d1.return1m > d2.return1m {
      score1 := score1 + 10;
    } else {
      score2 := score2 + 10;
    }
    var pe1 := PeOrDefault(d1.pe);
    var pe2 := PeOrDefault(d2.pe);
    if pe1 < pe2 {
      score1 := score1 + 20;
    } else if pe2 < pe1 {
      score2 := score2 + 20;
    }
    if d1.dividendYield > d2.dividendYield {
      score1 := score1 + 10;
    } else {
      score2 := score2 + 10;
    }
  }

  /** The points of the five criteria are all handed out except the P/E
      points on an equal P/E: the scores add up to 170, or 150 when the
      P/Es are equal. Each score lies between 50 and 120. */
  lemma ScoresTotal(d1: Metrics, d2: Metrics)
    ensures Scores(d1, d2).0 + Scores(d1, d2).1
            == if PeOrDefault(d1.pe) == PeOrDefault(d2.pe) then 150 else 170
    ensures 50 <= Scores(d1, d2).0 <= 120 && 50 <= Scores(d1, d2).1 <= 120
  {
    PointsOfAwards(d1, d2);
  }

  /** Two stocks with equal metrics: every tie goes to the second, which
      wins 100 to 50. */
  lemma EqualMetricsFavourSecond(d: Metrics)
    ensures Scores(d, d) == (50, 100)
    ensures WinnerOf(Scores(d, d).0, Scores(d, d).1) == SecondSymbol
  {
    PointsOfAwards(d, d);
  }

  /** When no criterion is tied, swapping the stocks swaps the scores. */
  lemma ScoresSwap(d1: Metrics, d2: Metrics)
    requires d1.return1y != d2.return1y && d1.return3m != d2.return3m && d1.return1m != d2.return1m
    requires d1.dividendYield != d2.dividendYield
    ensures Scores(d2, d1) == (Scores(d1, d2).1, Scores(d1, d2).0)
  {
    PointsOfAwards(d1, d2);
    PointsOfAwards(d2, d1);
  }

  // ---------------------------------------------------------------------------
  // _generate_recommendation

  /** The recommendation text, by the rule that produced it. */
  datatype Recommendation =
    | FirstHasBuy
    | SecondHasBuy
    | BothBuy(winner: Winner)
    | BothHold
    | Prefer(winner: Winner)

  /** The rules in the order they are tried: only the first has BUY, only
      the second has BUY, both BUY, both HOLD, else the winner. */
  function Recommend(signal1: Signal, signal2: Signal, winner: Winner): Recommendation
  {
    if signal1 == BuySignal && signal2 != BuySignal then FirstHasBuy
    else if signal2 == BuySignal && signal1 != BuySignal then SecondHasBuy
    else if signal1 == signal2 == BuySignal then BothBuy(winner)
    else if signal1 == signal2 == HoldSignal then BothHold
    else Prefer(winner)
  }

  /** A BUY signal is always recommended ahead of the scores: a lone BUY
      names its stock, and the scores decide only between two BUYs or when
      neither is BUY and not both are HOLD. */
  lemma RecommendationPrefersBuy(signal1: Signal, signal2: Signal, winner: Winner)
    ensures (signal1 == BuySignal || signal2 == BuySignal) <==>
            Recommend(signal1, signal2, winner) in {FirstHasBuy, SecondHasBuy, BothBuy(winner)}
    ensures Recommend(signal1, signal2, winner) == FirstHasBuy ==> signal1 == BuySignal
    ensures Recommend(signal1, signal2, winner) == SecondHasBuy ==> signal2 == BuySignal
    ensures Recommend(signal1, signal2, winner).Prefer? <==>
            signal1 != BuySignal && signal2 != BuySignal && !(signal1 == signal2 == HoldSignal)
  {
  }

  function Swapped(w: Winner): Winner
  {
    match w
    case FirstSymbol => SecondSymbol
    case SecondSymbol => FirstSymbol
    case Tie => Tie
  }

  /** The rules treat the two stocks alike: swapping them swaps the
      recommendation. */
  lemma RecommendationSymmetric(signal1: Signal, signal2: Signal, score1: int, score2: int)
    ensures var r := Recommend(signal1, signal2, WinnerOf(score1, score2));
            var s := Recommend(signal2, signal1, WinnerOf(score2, score1));
            (r == FirstHasBuy <==> s == SecondHasBuy)
            && (r.BothBuy? ==> s == BothBuy(Swapped(r.winner)))
            && (r.Prefer? ==> s == Prefer(Swapped(r.winner)))
            && (r == BothHold <==> s == BothHold)
  {
  }
}
