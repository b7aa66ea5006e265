/** `src/analysis/signals.py`: the signal types, a trading signal with its
    predicates and percentages, and the daily summary that sorts signals
    into buckets and picks a top signal. */
module Signals {
  import opened Wrappers
  import opened JsonValue

  datatype SignalType = Buy | Sell | Long | Short | Hold | SupportAlert | ResistanceAlert | NewsAlert

  /** The enum's string value. */
  function SignalTypeValue(t: SignalType): string
  {
    match t
    case Buy => "BUY"
    case Sell => "SELL"
    case Long => "LONG"
    case Short => "SHORT"
    case Hold => "HOLD"
    case SupportAlert => "SUPPORT_ALERT"
    case ResistanceAlert => "RESISTANCE_ALERT"
    case NewsAlert => "NEWS_ALERT"
  }

  /** The fields of `TradingSignal` the core reads; the timestamp is its
      hour and minute. */
  datatype TradingSignal = TradingSignal(
    symbol: string,
    name: string,
    signalType: SignalType,
    currentPrice: real,
    hour: nat,
    minute: nat,
    actionDetail: string,
    stopLoss: Option<real>,
    stopLossReasoning: string,
    exitTargets: seq<Json>,
    keyEvents: seq<string>,
    exitConditions: seq<string>,
    finalRecommendation: string,
    bullCase: string,
    bearCase: string,
    confidence: real,
    targets: seq<real>,
    sentimentScore: real,
    supportLevel: Option<real>,
    resistanceLevel: Option<real>,
    newsSummary: Option<string>)

  /** `is_actionable`; the confidence threshold is accepted and ignored. */
  predicate IsActionable(s: TradingSignal, minConfidence: real)
  {
    s.signalType in {Buy, Sell, Long, Short, SupportAlert, ResistanceAlert}
  }

  predicate IsBullish(s: TradingSignal)
  {
    s.signalType in {Buy, Long}
  }

  predicate IsBearish(s: TradingSignal)
  {
    s.signalType in {Sell, Short}
  }

  /** No signal is both bullish and bearish; both kinds are actionable at
      every threshold, and a HOLD or NEWS_ALERT is neither. */
  lemma BullishBearishDisjoint(s: TradingSignal, minConfidence: real)
    ensures !(IsBullish(s) && IsBearish(s))
    ensures IsBullish(s) || IsBearish(s) ==> IsActionable(s, minConfidence)
    ensures IsActionable(s, minConfidence) == IsActionable(s, 0.0)
    ensures s.signalType in {Hold, NewsAlert} <==> !IsActionable(s, minConfidence)
  {
    match s.signalType
    case Hold =>
    case NewsAlert =>
    case _ =>
  }

  /** `get_potential_profit_pct`: 0 without targets, else the move to the
      first target in percent of the price; a zero price divides by zero. */
  function PotentialProfitPct(s: TradingSignal): (r: Result<real, PyError>)
    ensures s.targets == [] ==> r == Ok(0.0)
    ensures s.targets != [] && s.currentPrice == 0.0 ==> r == Err(ZeroDivisionError)
    ensures s.targets != [] && s.currentPrice != 0.0 ==>
              r.Ok? && r.value * s.currentPrice == (s.targets[0] - s.currentPrice) * 100.0
  {
    if s.targets == [] then Ok(0.0)
    else if s.currentPrice == 0.0 then Err(ZeroDivisionError)
    else
      var pct := (s.targets[0] - s.currentPrice) / s.currentPrice * 100.0;
      Scale(s.targets[0] - s.currentPrice, s.currentPrice);
      Ok(pct)
  }

  /** `get_potential_loss_pct`: the move to the stop in percent of the
      price; a missing stop is a TypeError, a zero price divides by zero. */
  function PotentialLossPct(s: TradingSignal): (r: Result<real, PyError>)
    ensures s.stopLoss.None? ==> r == Err(TypeError)
    ensures s.stopLoss.Some? && s.currentPrice == 0.0 ==> r == Err(ZeroDivisionError)
    ensures s.stopLoss.Some? && s.currentPrice != 0.0 ==>
              r.Ok? && r.value * s.currentPrice == (s.stopLoss.value - s.currentPrice) * 100.0
  {
    if s.stopLoss.None? then Err(TypeError)
    else if s.currentPrice == 0.0 then Err(ZeroDivisionError)
    else
      Scale(s.stopLoss.value - s.currentPrice, s.currentPrice);
      Ok((s.stopLoss.value - s.currentPrice) / s.currentPrice * 100.0)
  }

  lemma Scale(diff: real, price: real)
    requires price != 0.0
    ensures diff / price * 100.0 * price == diff * 100.0
  {
    assert diff / price * price == diff;
  }

  /** For a positive price, the profit is positive exactly when the first
      target lies above the price, and the loss is negative exactly when
      the stop lies below it. */
  lemma PercentSigns(s: TradingSignal)
    requires s.currentPrice > 0.0
    ensures s.targets != [] ==> (PotentialProfitPct(s).value > 0.0 <==> s.targets[0] > s.currentPrice)
    ensures s.stopLoss.Some? ==> (PotentialLossPct(s).value < 0.0 <==> s.stopLoss.value < s.currentPrice)
  {
    if s.targets != [] {
      SignOfScaled(PotentialProfitPct(s).value, s.currentPrice, s.targets[0] - s.currentPrice);
    }
    if s.stopLoss.Some? {
      SignOfScaled(PotentialLossPct(s).value, s.currentPrice, s.stopLoss.value - s.currentPrice);
    }
  }

  lemma SignOfScaled(pct: real, price: real, diff: real)
    requires price > 0.0 && pct * price == diff * 100.0
    ensures pct > 0.0 <==> diff > 0.0
    ensures pct < 0.0 <==> diff < 0.0
  {
    if pct > 0.0 {
      assert pct * price > 0.0;
    } else if pct < 0.0 {
      assert pct * price < 0.0;
    } else {
      assert pct * price == 0.0;
    }
  }

  /** The list of `DailySummary` a signal of a given type goes to. */
  datatype Bucket = BuyBucket | SellBucket | SupportBucket | ResistanceBucket | NewsBucket | HoldBucket

  function BucketOf(t: SignalType): (b: Bucket)
    ensures b == BuyBucket <==> t in {Buy, Long}
    ensures b == SellBucket <==> t in {Sell, Short}
    ensures b == HoldBucket <==> t == Hold
  {
    match t
    case Buy | Long => BuyBucket
    case Sell | Short => SellBucket
    case SupportAlert => SupportBucket
    case ResistanceAlert => ResistanceBucket
    case NewsAlert => NewsBucket
    case Hold => HoldBucket
  }

  /** The buckets `actionable_count` counts are exactly those of the
      actionable signals. */
  lemma ActionableBuckets(s: TradingSignal, minConfidence: real)
    ensures BucketOf(s.signalType) in {BuyBucket, SellBucket, SupportBucket, ResistanceBucket}
            <==> IsActionable(s, minConfidence)
  {
  }

  class DailySummary {
    var totalAnalyzed: int
    var buySignals: seq<TradingSignal>
    var sellSignals: seq<TradingSignal>
    var supportAlerts: seq<TradingSignal>
    var resistanceAlerts: seq<TradingSignal>
    var holdSignals: seq<TradingSignal>
    var newsAlerts: seq<TradingSignal>
    var topPick: Option<TradingSignal>
    var errors: seq<string>

    /** A summary with empty buckets, no top pick and the given errors. */
    constructor (total: int, initialErrors: seq<string>)
      ensures totalAnalyzed == total && errors == initialErrors && topPick.None?
      ensures buySignals == [] && sellSignals == [] && supportAlerts == [] && resistanceAlerts == []
      ensures holdSignals == [] && newsAlerts == []
    {
      totalAnalyzed := total;
      buySignals := [];
      sellSignals := [];
      supportAlerts := [];
      resistanceAlerts := [];
      holdSignals := [];
      newsAlerts := [];
      topPick := None;
      errors := initialErrors;
    }

    /** The list of a bucket. */
    function Signals(b: Bucket): seq<TradingSignal>
      reads this
    {
      match b
      case BuyBucket => buySignals
      case SellBucket => sellSignals
      case SupportBucket => supportAlerts
      case ResistanceBucket => resistanceAlerts
      case NewsBucket => newsAlerts
      case HoldBucket => holdSignals
    }

    /** `actionable_count`. */
    function ActionableCount(): (n: nat)
      reads this
      ensures n == |Signals(BuyBucket)| + |Signals(SellBucket)| + |Signals(SupportBucket)| + |Signals(ResistanceBucket)|
    {
      |buySignals| + |sellSignals| + |supportAlerts| + |resistanceAlerts|
    }

    /** `add_signal`: the signal is appended to its bucket and to no
        other, so the actionable count grows by one exactly for an
        actionable signal. */
    method AddSignal(s: TradingSignal)
      modifies this
      ensures Signals(BucketOf(s.signalType)) == old(Signals(BucketOf(s.signalType))) + [s]
      ensures forall b :: b != BucketOf(s.signalType) ==> Signals(b) == old(Signals(b))
      ensures topPick == old(topPick) && errors == old(errors) && totalAnalyzed == old(totalAnalyzed)
      ensures ActionableCount() == old(ActionableCount()) + (if IsActionable(s, 0.0) then 1 else 0)
    {
      var t := s.signalType;
      if t in {Buy, Long} {
        buySignals := buySignals + [s];
      } else if t in {Sell, Short} {
        sellSignals := sellSignals + [s];
      } else if t == SupportAlert {
        supportAlerts := supportAlerts + [s];
      } else if t == ResistanceAlert {
        resistanceAlerts := resistanceAlerts + [s];
      } else if t == NewsAlert {
        newsAlerts := newsAlerts + [s];
      } else {
        holdSignals := holdSignals + [s];
      }
    }

    /** `determine_top_pick`: the first BUY/LONG signal, else the first
        SELL/SHORT signal; with neither the top pick stays as it was. */
    method DetermineTopPick()
      modifies this
      ensures buySignals != [] ==> topPick == Some(buySignals[0])
      ensures buySignals == [] && sellSignals != [] ==> topPick == Some(sellSignals[0])
      ensures buySignals == [] && sellSignals == [] ==> topPick == old(topPick)
      ensures buySignals == old(buySignals) && sellSignals == old(sellSignals)
      ensures supportAlerts == old(supportAlerts) && resistanceAlerts == old(resistanceAlerts)
      ensures holdSignals == old(holdSignals) && newsAlerts == old(newsAlerts)
      ensures errors == old(errors) && totalAnalyzed == old(totalAnalyzed)
      ensures forall b :: Signals(b) == old(Signals(b))
    {
      var allActionable := buySignals + sellSignals;
      if allActionable != [] {
        topPick := Some(allActionable[0]);
      }
    }
  }

  /** The bucket contents after adding a list of signals to empty buckets:
      the signals of that bucket, in arrival order. */
  function InBucket(signals: seq<TradingSignal>, b: Bucket): (r: seq<TradingSignal>)
    ensures |r| <= |signals|
  {
    if signals == [] then []
    else InBucket(signals[..|signals| - 1], b)
         + (if BucketOf(signals[|signals| - 1].signalType) == b then [signals[|signals| - 1]] else [])
  }

  /** A bucket holds only signals of that bucket, taken from the added ones. */
  lemma {:induction false} InBucketMembers(signals: seq<TradingSignal>, b: Bucket)
    ensures forall s :: s in InBucket(signals, b) ==> s in signals && BucketOf(s.signalType) == b
  {
    if signals != [] {
      var front := signals[..|signals| - 1];
      InBucketMembers(front, b);
      assert forall s :: s in front ==> s in signals;
    }
  }

  /** Every signal lands in exactly one bucket: the bucket sizes add up to
      the number of signals. */
  lemma {:induction false} BucketsPartition(signals: seq<TradingSignal>)
    ensures |InBucket(signals, BuyBucket)| + |InBucket(signals, SellBucket)| + |InBucket(signals, SupportBucket)|
            + |InBucket(signals, ResistanceBucket)| + |InBucket(signals, NewsBucket)| + |InBucket(signals, HoldBucket)|
            == |signals|
  {
    if signals != [] {
      BucketsPartition(signals[..|signals| - 1]);
    }
  }
}
