/** `scripts/chart_vision.py`: the indicator arrays drawn on the chart —
    the simple moving average, Chaikin money flow and on-balance volume.
    Each method allocates its result array and fills it index by index as
    the source does; NaN entries are `None`. Prices and volumes are exact
    reals. */
module ChartVision {
  import opened Wrappers
  import opened Dicts

  // ---------------------------------------------------------------------------
  // Sums

  lemma {:induction false} SumAppend(a: seq<real>, b: seq<real>)
    ensures Sum(a + b) == Sum(a) + Sum(b)
    decreases |b|
  {
    if b != [] {
      var n := |b| - 1;
      assert (a + b)[..|a + b| - 1] == a + b[..n];
      SumAppend(a, b[..n]);
    } else {
      assert a + b == a;
    }
  }

  lemma SumCons(x: real, s: seq<real>)
    ensures Sum([x] + s) == x + Sum(s)
  {
    SumAppend([x], s);
    assert [x][..0] == [];
  }

  /** A sequence of one repeated value sums to its length times the value. */
  lemma {:induction false} SumConstant(xs: seq<real>, c: real)
    requires forall k :: 0 <= k < |xs| ==> xs[k] == c
    ensures Sum(xs) == |xs| as real * c
  {
    if xs != [] {
      SumConstant(xs[..|xs| - 1], c);
    }
  }

  /** Values within [lo, hi] sum to within |xs|·lo and |xs|·hi. */
  lemma {:induction false} SumBetween(xs: seq<real>, lo: real, hi: real)
    requires forall k :: 0 <= k < |xs| ==> lo <= xs[k] <= hi
    ensures |xs| as real * lo <= Sum(xs) <= |xs| as real * hi
  {
    if xs != [] {
      SumBetween(xs[..|xs| - 1], lo, hi);
    }
  }

  /** Terms bounded by the matching weights sum within the weights' sum. */
  lemma {:induction false} SumDominated(xs: seq<real>, ws: seq<real>)
    requires |xs| == |ws| && forall k :: 0 <= k < |xs| ==> -ws[k] <= xs[k] <= ws[k]
    ensures -Sum(ws) <= Sum(xs) <= Sum(ws)
  {
    if xs != [] {
      SumDominated(xs[..|xs| - 1], ws[..|ws| - 1]);
    }
  }

  /** `np.mean` of a non-empty window. */
  function Mean(window: seq<real>): real
    requires window != []
  {
    Sum(window) / |window| as real
  }

  /** The `period` values ending at index `i`. */
  function Window(xs: seq<real>, period: nat, i: nat): (w: seq<real>)
    requires 1 <= period && period - 1 <= i < |xs|
    ensures |w| == period
  {
    xs[i + 1 - period..i + 1]
  }

  // ---------------------------------------------------------------------------
  // Simple moving average

  /** Entry `i` of `_calculate_sma(data, period)`: NaN before a full window
      (or everywhere when the data is shorter than one window), otherwise
      the mean of the window ending at `i`. */
  function SmaAt(data: seq<real>, period: nat, i: nat): Option<real>
    requires 1 <= period && i < |data|
  {
    if |data| >= period && i >= period - 1 then Some(Mean(Window(data, period, i))) else None
  }

  /** `_calculate_sma`: an array of the data's length, NaN-filled, then the
      window means written from index `period - 1` on. */
  method CalculateSma(data: seq<real>, period: nat) returns (sma: array<Option<real>>)
    requires 1 <= period
    ensures fresh(sma) && sma.Length == |data|
    ensures forall i :: 0 <= i < |data| ==> sma[i] == SmaAt(data, period, i)
  {
    sma := new Option<real>[|data|](_ => None);
    if |data| >= period {
      for i := period - 1 to |data|
        invariant forall k :: 0 <= k < |data| ==> sma[k] == (if k < i then SmaAt(data, period, k) else None)
      {
        sma[i] := Some(Mean(data[i - period + 1..i + 1]));
      }
    }
  }

  /** A constant series averages to that constant. */
  lemma SmaConstant(data: seq<real>, period: nat, i: nat, c: real)
    requires 1 <= period && i < |data| && SmaAt(data, period, i).Some?
    requires forall k :: 0 <= k < |data| ==> data[k] == c
    ensures SmaAt(data, period, i) == Some(c)
  {
    var w := Window(data, period, i);
    SumConstant(w, c);
    DivOfProduct(Sum(w), c, period as real);
  }

  /** The average lies within the range of the data. */
  lemma SmaWithin(data: seq<real>, period: nat, i: nat, lo: real, hi: real)
    requires 1 <= period && i < |data| && SmaAt(data, period, i).Some?
    requires forall k :: 0 <= k < |data| ==> lo <= data[k] <= hi
    ensures lo <= SmaAt(data, period, i).value <= hi
  {
    var w := Window(data, period, i);
    SumBetween(w, lo, hi);
    DivLe(lo, Sum(w), period as real);
    DivGe(hi, Sum(w), period as real);
  }

  /** Moving the window one step adds the new value's share and drops the
      oldest one's. */
  lemma SmaSlide(data: seq<real>, period: nat, i: nat)
    requires 1 <= period <= i < |data|
    ensures SmaAt(data, period, i).value
         == SmaAt(data, period, i - 1).value + (data[i] - data[i - period]) / period as real
  {
    var mid := data[i + 1 - period..i];
    assert Window(data, period, i - 1) == [data[i - period]] + mid;
    assert Window(data, period, i) == mid + [data[i]];
    SumCons(data[i - period], mid);
    SumAppend(mid, [data[i]]);
    assert Sum([data[i]]) == data[i] by {
      assert [data[i]][..0] == [];
    }
    SlideDiv(Sum(mid), data[i - period], data[i], period as real);
  }

  lemma SlideDiv(m: real, old_: real, new_: real, p: real)
    requires p > 0.0
    ensures (m + new_) / p == (old_ + m) / p + (new_ - old_) / p
  {
  }

  // ---------------------------------------------------------------------------
  // On-balance volume

  /** One step of on-balance volume: add the volume on an up close,
      subtract it on a down close, keep the total on an equal close. */
  function ObvStep(total: real, before: real, now: real, volume: real): real
  {
    if now > before then total + volume
    else if now < before then total - volume
    else total
  }

  /** Entry `i` of `_calculate_obv`: 0 at the first close, then one step
      per later close. */
  function ObvAt(closes: seq<real>, volumes: seq<real>, i: nat): real
    requires i < |closes| <= |volumes|
  {
    if i == 0 then 0.0 else ObvStep(ObvAt(closes, volumes, i - 1), closes[i - 1], closes[i], volumes[i])
  }

  /** `_calculate_obv`: a zero array of the closes' length, filled from
      index 1 on. */
  method CalculateObv(closes: seq<real>, volumes: seq<real>) returns (obv: array<real>)
    requires |closes| <= |volumes|
    ensures fresh(obv) && obv.Length == |closes|
    ensures forall i :: 0 <= i < |closes| ==> obv[i] == ObvAt(closes, volumes, i)
  {
    obv := new real[|closes|](_ => 0.0);
    if |closes| == 0 {
      return;
    }
    for i := 1 to |closes|
      invariant forall k :: 0 <= k < i ==> obv[k] == ObvAt(closes, volumes, k)
    {
      ObvUpdate(obv, closes, volumes, i);
    }
  }

  /** One pass of the loop of `_calculate_obv`: entry `i` from entry `i - 1`
      and the move of the close. */
  method ObvUpdate(obv: array<real>, closes: seq<real>, volumes: seq<real>, i: nat)
    requires 0 < i < |closes| <= |volumes| && obv.Length == |closes|
    requires forall k :: 0 <= k < i ==> obv[k] == ObvAt(closes, volumes, k)
    modifies obv
    ensures forall k :: 0 <= k < i + 1 ==> obv[k] == ObvAt(closes, volumes, k)
    ensures forall k :: i < k < obv.Length ==> obv[k] == old(obv[k])
  {
    var total := obv[i - 1];
    if closes[i] > closes[i - 1] {
      total := total + volumes[i];
    } else if closes[i] < closes[i - 1] {
      total := total - volumes[i];
    }
    obv[i] := total;
  }

  /** Flat prices leave on-balance volume at zero. */
  lemma {:induction false} ObvFlat(closes: seq<real>, volumes: seq<real>, i: nat)
    requires i < |closes| <= |volumes|
    requires forall k :: 0 <= k < |closes| ==> closes[k] == closes[0]
    ensures ObvAt(closes, volumes, i) == 0.0
  {
    if i > 0 {
      ObvFlat(closes, volumes, i - 1);
    }
  }

  /** Over strictly rising closes it is the running sum of the volumes after
      the first. */
  lemma {:induction false} ObvRising(closes: seq<real>, volumes: seq<real>, i: nat)
    requires i < |closes| <= |volumes|
    requires forall k :: 0 < k < |closes| ==> closes[k - 1] < closes[k]
    ensures ObvAt(closes, volumes, i) == Sum(volumes[1..i + 1])
  {
    if i > 0 {
      ObvRising(closes, volumes, i - 1);
      assert volumes[1..i + 1][..i - 1] == volumes[1..i];
    } else {
      assert volumes[1..1] == [];
    }
  }

  /** With non-negative volumes it never leaves the band of plus or minus
      that running sum. */
  lemma {:induction false} ObvBounded(closes: seq<real>, volumes: seq<real>, i: nat)
    requires i < |closes| <= |volumes|
    requires forall k :: 0 <= k < |volumes| ==> volumes[k] >= 0.0
    ensures -Sum(volumes[1..i + 1]) <= ObvAt(closes, volumes, i) <= Sum(volumes[1..i + 1])
  {
    if i > 0 {
      ObvBounded(closes, volumes, i - 1);
      assert volumes[1..i + 1][..i - 1] == volumes[1..i];
    } else {
      assert volumes[1..1] == [];
    }
  }

  // ---------------------------------------------------------------------------
  // Chaikin money flow

  /** `high - low`, with a zero range read as 1. */
  function Range(high: real, low: real): (r: real)
    ensures r != 0.0
  {
    if high - low == 0.0 then 1.0 else high - low
  }

  /** The money flow multiplier of one bar. */
  function Multiplier(high: real, low: real, close: real): real
  {
    ((close - low) - (high - close)) / Range(high, low)
  }

  /** The money flow volume of every bar. */
  function FlowVolumes(highs: seq<real>, lows: seq<real>, closes: seq<real>, volumes: seq<real>): (mfv: seq<real>)
    requires |highs| == |lows| == |closes| == |volumes|
    ensures |mfv| == |closes|
    ensures forall k :: 0 <= k < |closes| ==> mfv[k] == Multiplier(highs[k], lows[k], closes[k]) * volumes[k]
  {
    seq(|closes|, k requires 0 <= k < |closes| => Multiplier(highs[k], lows[k], closes[k]) * volumes[k])
  }

  /** Entry `i` of `_calculate_cmf`: NaN everywhere when there is no full
      window, NaN before the first full window and where the window's
      volume is not positive, otherwise the window's money flow volume over
      its volume. */
  function CmfAt(highs: seq<real>, lows: seq<real>, closes: seq<real>, volumes: seq<real>, period: nat, i: nat): Option<real>
    requires |highs| == |lows| == |closes| == |volumes|
    requires 1 <= period && i < |closes|
  {
    if |closes| < period || i < period - 1 then None
    else
      var volume := Sum(Window(volumes, period, i));
      if volume > 0.0 then Some(Sum(Window(FlowVolumes(highs, lows, closes, volumes), period, i)) / volume)
      else None
  }

  /** `_calculate_cmf`: an array of the closes' length, NaN-filled, returned
      as it is when there is no full window, else written where the
      window's volume is positive. */
  method CalculateCmf(highs: seq<real>, lows: seq<real>, closes: seq<real>, volumes: seq<real>, period: nat)
    returns (cmf: array<Option<real>>)
    requires |highs| == |lows| == |closes| == |volumes|
    requires 1 <= period
    ensures fresh(cmf) && cmf.Length == |closes|
    ensures forall i :: 0 <= i < |closes| ==> cmf[i] == CmfAt(highs, lows, closes, volumes, period, i)
  {
    cmf := new Option<real>[|closes|](_ => None);
    if |closes| < period {
      return;
    }
    var mfv := FlowVolumes(highs, lows, closes, volumes);
    for i := period - 1 to |closes|
      invariant forall k :: 0 <= k < |closes| ==>
        cmf[k] == (if k < i then CmfAt(highs, lows, closes, volumes, period, k) else None)
    {
      var volume := Sum(volumes[i - period + 1..i + 1]);
      label before:
      if volume > 0.0 {
        cmf[i] := Some(Sum(mfv[i - period + 1..i + 1]) / volume);
      }
      assert cmf[i] == CmfAt(highs, lows, closes, volumes, period, i);
      forall k | 0 <= k < |closes|
        ensures cmf[k] == (if k < i + 1 then CmfAt(highs, lows, closes, volumes, period, k) else None)
      {
        if k != i {
          assert cmf[k] == old@before(cmf[k]);
        }
      }
    }
  }

  /** A close within its bar's range gives a multiplier between -1 and 1. */
  lemma MultiplierBounded(high: real, low: real, close: real)
    requires low <= close <= high
    ensures -1.0 <= Multiplier(high, low, close) <= 1.0
  {
    if high > low {
      var r := high - low;
      DivLe(-1.0, (close - low) - (high - close), r);
      DivGe(1.0, (close - low) - (high - close), r);
    }
  }

  lemma ScaledBounded(m: real, v: real, p: real)
    requires -1.0 <= m <= 1.0 && v >= 0.0 && p == m * v
    ensures -v <= p <= v
  {
    MulMono(-1.0, m, v);
    MulMono(m, 1.0, v);
  }

  /** With every close inside its bar and non-negative volumes, the money
      flow stays between -1 and 1. */
  lemma CmfBounded(highs: seq<real>, lows: seq<real>, closes: seq<real>, volumes: seq<real>, period: nat, i: nat)
    requires |highs| == |lows| == |closes| == |volumes|
    requires 1 <= period && i < |closes|
    requires forall k :: 0 <= k < |closes| ==> lows[k] <= closes[k] <= highs[k] && volumes[k] >= 0.0
    requires CmfAt(highs, lows, closes, volumes, period, i).Some?
    ensures -1.0 <= CmfAt(highs, lows, closes, volumes, period, i).value <= 1.0
  {
    var mfv := FlowVolumes(highs, lows, closes, volumes);
    var flow := Window(mfv, period, i);
    var vols := Window(volumes, period, i);
    forall k | 0 <= k < period ensures -vols[k] <= flow[k] <= vols[k] {
      var j := i + 1 - period + k;
      var m := Multiplier(highs[j], lows[j], closes[j]);
      assert flow[k] == m * volumes[j] && vols[k] == volumes[j];
      MultiplierBounded(highs[j], lows[j], closes[j]);
      ScaledBounded(m, volumes[j], flow[k]);
    }
    SumDominated(flow, vols);
    DivLe(-1.0, Sum(flow), Sum(vols));
    DivGe(1.0, Sum(flow), Sum(vols));
  }

  /** A window without volume leaves the entry NaN. */
  lemma CmfNoVolume(highs: seq<real>, lows: seq<real>, closes: seq<real>, volumes: seq<real>, period: nat, i: nat)
    requires |highs| == |lows| == |closes| == |volumes|
    requires 1 <= period && i < |closes| && period - 1 <= i
    requires forall k :: i + 1 - period <= k <= i ==> volumes[k] == 0.0
    ensures CmfAt(highs, lows, closes, volumes, period, i).None?
  {
    var vols := Window(volumes, period, i);
    SumConstant(vols, 0.0);
  }
}
