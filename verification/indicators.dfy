/**
  The indicators the bot computes by hand (index.js): On-Balance Volume,
  Williams %R, the Ichimoku lines and Elder-Ray.

  Windows are the rows of one query, newest first (index.js:250), so index 0
  is the latest candle. Each function keeps the source's indexing: OBV and
  Williams %R walk the window from index 0 upwards, Ichimoku and Elder-Ray read
  its first entries.
 */
module Indicators {
  import opened Wrappers
  import opened JsNumber

  // ---------------------------------------------------------------------------
  // Extrema over a spread array: Math.max(...s) and Math.min(...s)

  function MaxOf(s: seq<real>): (m: real)
    requires |s| > 0
    ensures m in s
    ensures forall i :: 0 <= i < |s| ==> s[i] <= m
  {
    if |s| == 1 then s[0]
    else
      var rest := MaxOf(s[1..]);
      assert forall i :: 1 <= i < |s| ==> s[i] == s[1..][i - 1];
      if s[0] >= rest then s[0] else rest
  }

  function MinOf(s: seq<real>): (m: real)
    requires |s| > 0
    ensures m in s
    ensures forall i :: 0 <= i < |s| ==> m <= s[i]
  {
    if |s| == 1 then s[0]
    else
      var rest := MinOf(s[1..]);
      assert forall i :: 1 <= i < |s| ==> s[i] == s[1..][i - 1];
      if s[0] <= rest then s[0] else rest
  }

  /** `Math.max(...s)`, which is -Infinity for an empty argument list. */
  function MathMax(s: seq<real>): (m: Num)
    ensures |s| == 0 <==> m == NegInf
    ensures |s| > 0 ==> m.Finite? && m.v in s && forall i :: 0 <= i < |s| ==> s[i] <= m.v
  {
    if |s| == 0 then NegInf else Finite(MaxOf(s))
  }

  /** `Math.min(...s)`, which is Infinity for an empty argument list. */
  function MathMin(s: seq<real>): (m: Num)
    ensures |s| == 0 <==> m == PosInf
    ensures |s| > 0 ==> m.Finite? && m.v in s && forall i :: 0 <= i < |s| ==> m.v <= s[i]
  {
    if |s| == 0 then PosInf else Finite(MinOf(s))
  }

  /** `s.slice(0, n)`: the first n entries, or all of them when there are fewer. */
  function Prefix(s: seq<real>, n: nat): (p: seq<real>)
    ensures |p| == if n <= |s| then n else |s|
    ensures p <= s
  {
    if n <= |s| then s[..n] else s
  }

  /** Every candle of the window has its low at or below its high. */
  ghost predicate LowsBelowHighs(highs: seq<real>, lows: seq<real>)
    requires |highs| == |lows|
  {
    forall i :: 0 <= i < |highs| ==> lows[i] <= highs[i]
  }

  ghost predicate NonDecreasing(s: seq<real>) {
    forall i, j :: 0 <= i < j < |s| ==> s[i] <= s[j]
  }

  ghost predicate AdjacentNonDecreasing(s: seq<real>) {
    forall i :: 0 < i < |s| ==> s[i - 1] <= s[i]
  }

  lemma {:induction false} AdjacentChain(s: seq<real>, i: nat, j: nat)
    requires AdjacentNonDecreasing(s)
    requires i <= j < |s|
    ensures s[i] <= s[j]
    decreases j - i
  {
    if i < j {
      AdjacentChain(s, i, j - 1);
    }
  }

  /** Comparing neighbours is enough to know a sequence is non-decreasing. */
  lemma AdjacentIsNonDecreasing(s: seq<real>)
    requires AdjacentNonDecreasing(s)
    ensures NonDecreasing(s)
  {
    forall i, j | 0 <= i < j < |s|
      ensures s[i] <= s[j]
    {
      AdjacentChain(s, i, j);
    }
  }

  // ---------------------------------------------------------------------------
  // On-Balance Volume (calculateOBV)

  /** OBV: starts at the first volume; each later entry adds the candle's volume
      when its close is above the previous entry's close, subtracts it when
      below, and repeats the running value when equal. */
  function Obv(closes: seq<real>, volumes: seq<real>): (obv: seq<real>)
    requires 0 < |closes| == |volumes|
    ensures |obv| == |closes|
    ensures obv[0] == volumes[0]
    ensures forall i :: 0 < i < |closes| ==>
      obv[i] == if closes[i] > closes[i - 1] then obv[i - 1] + volumes[i]
                else if closes[i] < closes[i - 1] then obv[i - 1] - volumes[i]
                else obv[i - 1]
    decreases |closes|
  {
    if |closes| == 1 then [volumes[0]]
    else
      var n := |closes| - 1;
      var prev := Obv(closes[..n], volumes[..n]);
      var next :=
        if closes[n] > closes[n - 1] then prev[n - 1] + volumes[n]
        else if closes[n] < closes[n - 1] then prev[n - 1] - volumes[n]
        else prev[n - 1];
      prev + [next]
  }

  /** With non-negative volumes, OBV never falls along a window whose closes never fall. */
  lemma ObvNonDecreasing(closes: seq<real>, volumes: seq<real>)
    requires 0 < |closes| == |volumes|
    requires NonDecreasing(closes)
    requires forall i :: 0 <= i < |volumes| ==> volumes[i] >= 0.0
    ensures NonDecreasing(Obv(closes, volumes))
  {
    var obv := Obv(closes, volumes);
    forall i | 0 < i < |obv|
      ensures obv[i - 1] <= obv[i]
    {
      assert closes[i - 1] <= closes[i];
    }
    AdjacentIsNonDecreasing(obv);
  }

  /** Conversely, with strictly positive volumes OBV can only be non-decreasing
      when the closes are: every lower close pulls OBV down. */
  lemma ObvNonDecreasingOnlyIfClosesAre(closes: seq<real>, volumes: seq<real>)
    requires 0 < |closes| == |volumes|
    requires forall i :: 0 <= i < |volumes| ==> volumes[i] > 0.0
    requires NonDecreasing(Obv(closes, volumes))
    ensures NonDecreasing(closes)
  {
    var obv := Obv(closes, volumes);
    forall i | 0 < i < |closes|
      ensures closes[i - 1] <= closes[i]
    {
      assert obv[i - 1] <= obv[i];
    }
    AdjacentIsNonDecreasing(closes);
  }

  // ---------------------------------------------------------------------------
  // Williams %R (calculateWilliamsR)

  /** The `period` entries of s ending at index i: `s.slice(i - period + 1, i + 1)`. */
  function Window(s: seq<real>, period: nat, i: nat): (w: seq<real>)
    requires 1 <= period <= i + 1 <= |s|
    ensures |w| == period
  {
    s[i + 1 - period .. i + 1]
  }

  /** `((highestHigh - close) / (highestHigh - lowestLow)) * -100` */
  function WilliamsRFormula(highestHigh: real, lowestLow: real, close: real): (r: Num)
    ensures highestHigh != lowestLow ==>
      r == Finite((highestHigh - close) / (highestHigh - lowestLow) * -100.0)
    ensures highestHigh == lowestLow ==>
      (close == highestHigh <==> r.NaN?) &&
      (close < highestHigh <==> r.NegInf?) &&
      (close > highestHigh <==> r.PosInf?)
  {
    Mul(Div(Finite(highestHigh - close), Finite(highestHigh - lowestLow)), Finite(-100.0))
  }

  /** The formula over the window ending at index i. */
  function WilliamsRAt(highs: seq<real>, lows: seq<real>, closes: seq<real>, period: nat, i: nat): Num
    requires |highs| == |lows| == |closes|
    requires 1 <= period <= i + 1 <= |closes|
  {
    WilliamsRFormula(MaxOf(Window(highs, period, i)), MinOf(Window(lows, period, i)), closes[i])
  }

  /** The value of the last iteration of the source's loop, i.e. the window
      ending at the highest index; None (`null`) when the loop pushes nothing.
      With period 0 every window is empty and the source computes NaN. */
  function WilliamsR(highs: seq<real>, lows: seq<real>, closes: seq<real>, period: nat): (r: Option<Num>)
    requires |highs| == |lows| == |closes|
    ensures r.None? <==> |closes| < period
    ensures period >= 1 && r.Some? ==> r.value == WilliamsRAt(highs, lows, closes, period, |closes| - 1)
  {
    if period == 0 then Some(NaN)
    else if |closes| < period then None
    else Some(WilliamsRAt(highs, lows, closes, period, |closes| - 1))
  }

  /** On well-formed candles with a non-zero range, Williams %R lies in [-100, 0]. */
  lemma WilliamsRBounded(highs: seq<real>, lows: seq<real>, closes: seq<real>, period: nat)
    requires |highs| == |lows| == |closes|
    requires 1 <= period <= |closes|
    requires forall i :: 0 <= i < |closes| ==> lows[i] <= closes[i] <= highs[i]
    requires MaxOf(Window(highs, period, |closes| - 1)) > MinOf(Window(lows, period, |closes| - 1))
    ensures WilliamsR(highs, lows, closes, period).Some?
    ensures WilliamsR(highs, lows, closes, period).value.Finite?
    ensures -100.0 <= WilliamsR(highs, lows, closes, period).value.v <= 0.0
  {
    var n := |closes| - 1;
    var hh := MaxOf(Window(highs, period, n));
    var ll := MinOf(Window(lows, period, n));
    assert Window(highs, period, n)[period - 1] == highs[n];
    assert Window(lows, period, n)[period - 1] == lows[n];
    FormulaBounded(hh, ll, closes[n]);
  }

  /** With the close inside a non-empty range the formula is finite and in [-100, 0]. */
  lemma FormulaBounded(highestHigh: real, lowestLow: real, close: real)
    requires lowestLow <= close <= highestHigh && lowestLow < highestHigh
    ensures WilliamsRFormula(highestHigh, lowestLow, close).Finite?
    ensures -100.0 <= WilliamsRFormula(highestHigh, lowestLow, close).v <= 0.0
    ensures WilliamsRFormula(highestHigh, lowestLow, close).v
      == (highestHigh - close) / (highestHigh - lowestLow) * -100.0
  {
    UnitRatio(highestHigh - close, highestHigh - lowestLow);
    var q := (highestHigh - close) / (highestHigh - lowestLow);
    assert WilliamsRFormula(highestHigh, lowestLow, close) == Finite(q * -100.0);
  }

  lemma UnitRatio(a: real, b: real)
    requires 0.0 <= a <= b && b > 0.0
    ensures 0.0 <= a / b <= 1.0
  {
    assert a / b * b == a;
  }

  /** A flat window (every high, low and close equal) has no range, and the
      source's 0/0 makes Williams %R NaN rather than 0. */
  lemma WilliamsRFlatWindowIsNaN(highs: seq<real>, lows: seq<real>, closes: seq<real>, period: nat, price: real)
    requires |highs| == |lows| == |closes|
    requires 1 <= period <= |closes|
    requires forall i :: 0 <= i < |closes| ==> highs[i] == price && lows[i] == price && closes[i] == price
    ensures WilliamsR(highs, lows, closes, period) == Some(NaN)
  {
    var n := |closes| - 1;
    var wh := Window(highs, period, n);
    var wl := Window(lows, period, n);
    assert MaxOf(wh) == price by { assert MaxOf(wh) in wh; }
    assert MinOf(wl) == price by { assert MinOf(wl) in wl; }
    assert closes[n] == price;
    assert WilliamsRFormula(price, price, price) == NaN;
  }

  /** Only the `period` highest indices take part: arrays that agree there give
      the same Williams %R, whatever their other entries. On analyzeTrend's
      newest-first arrays those are the oldest candles, so the newest close --
      the candle being judged -- never affects the value once there are more
      candles than the period. */
  lemma WilliamsRIgnoresNewest(highs: seq<real>, lows: seq<real>, closes: seq<real>,
                               highs': seq<real>, lows': seq<real>, closes': seq<real>, period: nat)
    requires |highs| == |lows| == |closes| == |highs'| == |lows'| == |closes'|
    requires 1 <= period <= |closes|
    requires forall i :: |closes| - period <= i < |closes| ==>
      highs[i] == highs'[i] && lows[i] == lows'[i] && closes[i] == closes'[i]
    ensures WilliamsR(highs, lows, closes, period) == WilliamsR(highs', lows', closes', period)
  {
    SameWindow(highs, highs', period);
    SameWindow(lows, lows', period);
    SameLastWindow(highs, lows, closes, highs', lows', closes', period);
  }

  /** Williams %R depends only on the last window of highs and lows and the last close. */
  lemma SameLastWindow(highs: seq<real>, lows: seq<real>, closes: seq<real>,
                       highs': seq<real>, lows': seq<real>, closes': seq<real>, period: nat)
    requires |highs| == |lows| == |closes| == |highs'| == |lows'| == |closes'|
    requires 1 <= period <= |closes|
    requires Window(highs, period, |closes| - 1) == Window(highs', period, |closes| - 1)
    requires Window(lows, period, |closes| - 1) == Window(lows', period, |closes| - 1)
    requires closes[|closes| - 1] == closes'[|closes| - 1]
    ensures WilliamsR(highs, lows, closes, period) == WilliamsR(highs', lows', closes', period)
  {
    var n := |closes| - 1;
    var hh, ll := MaxOf(Window(highs, period, n)), MinOf(Window(lows, period, n));
    assert WilliamsR(highs, lows, closes, period) == Some(WilliamsRFormula(hh, ll, closes[n]));
    assert WilliamsR(highs', lows', closes', period) == Some(WilliamsRFormula(hh, ll, closes[n]));
  }

  lemma SameWindow(a: seq<real>, b: seq<real>, period: nat)
    requires |a| == |b| && 1 <= period <= |a|
    requires forall i :: |a| - period <= i < |a| ==> a[i] == b[i]
    ensures Window(a, period, |a| - 1) == Window(b, period, |b| - 1)
  {
    var wa := Window(a, period, |a| - 1);
    var wb := Window(b, period, |b| - 1);
    forall k | 0 <= k < period
      ensures wa[k] == wb[k]
    {
      assert wa[k] == a[|a| - period + k];
    }
  }

  /** s in the opposite order. */
  function Reverse(s: seq<real>): (r: seq<real>)
    ensures |r| == |s| && forall i :: 0 <= i < |s| ==> r[i] == s[|s| - 1 - i]
  {
    seq(|s|, i requires 0 <= i < |s| => s[|s| - 1 - i])
  }

  /** Williams %R of the newest `period` candles of newest-first arrays: the
      highest high and lowest low of the first `period` entries, against the
      first close. */
  function WilliamsRLatest(highs: seq<real>, lows: seq<real>, closes: seq<real>, period: nat): (r: Option<Num>)
    requires |highs| == |lows| == |closes|
    ensures r.None? <==> |closes| < period
  {
    if period == 0 then Some(NaN)
    else if |closes| < period then None
    else
      Some(WilliamsRFormula(MaxOf(highs[..period]), MinOf(lows[..period]), closes[0]))
  }

  /** WilliamsRLatest is the source's formula run over the candles in time
      order, oldest first: its last window is then the newest one. */
  lemma WilliamsRLatestIsChronological(highs: seq<real>, lows: seq<real>, closes: seq<real>, period: nat)
    requires |highs| == |lows| == |closes|
    ensures WilliamsRLatest(highs, lows, closes, period)
         == WilliamsR(Reverse(highs), Reverse(lows), Reverse(closes), period)
  {
    if 1 <= period <= |closes| {
      ReversedMax(highs, period);
      ReversedMin(lows, period);
      assert Reverse(closes)[|closes| - 1] == closes[0];
    }
  }

  lemma ReversedMax(s: seq<real>, period: nat)
    requires 1 <= period <= |s|
    ensures MaxOf(s[..period]) == MaxOf(Window(Reverse(s), period, |s| - 1))
  {
    ReversedWindow(s, period);
    MaxOfSameElements(s[..period], Window(Reverse(s), period, |s| - 1));
  }

  lemma ReversedMin(s: seq<real>, period: nat)
    requires 1 <= period <= |s|
    ensures MinOf(s[..period]) == MinOf(Window(Reverse(s), period, |s| - 1))
  {
    ReversedWindow(s, period);
    MinOfSameElements(s[..period], Window(Reverse(s), period, |s| - 1));
  }

  /** The last `period` entries of the reversed sequence are its first `period` entries. */
  lemma ReversedWindow(s: seq<real>, period: nat)
    requires 1 <= period <= |s|
    ensures forall x :: x in s[..period] <==> x in Window(Reverse(s), period, |s| - 1)
  {
    var w := Window(Reverse(s), period, |s| - 1);
    forall x | x in s[..period]
      ensures x in w
    {
      var j :| 0 <= j < period && s[..period][j] == x;
      assert w[period - 1 - j] == x;
    }
    forall x | x in w
      ensures x in s[..period]
    {
      var j :| 0 <= j < period && w[j] == x;
      assert s[..period][period - 1 - j] == x;
    }
  }

  lemma MaxOfSameElements(a: seq<real>, b: seq<real>)
    requires |a| > 0 && |b| > 0
    requires forall x :: x in a <==> x in b
    ensures MaxOf(a) == MaxOf(b)
  {
    var i :| 0 <= i < |b| && b[i] == MaxOf(a);
    var j :| 0 <= j < |a| && a[j] == MaxOf(b);
  }

  lemma MinOfSameElements(a: seq<real>, b: seq<real>)
    requires |a| > 0 && |b| > 0
    requires forall x :: x in a <==> x in b
    ensures MinOf(a) == MinOf(b)
  {
    var i :| 0 <= i < |b| && b[i] == MinOf(a);
    var j :| 0 <= j < |a| && a[j] == MinOf(b);
  }

  /** On well-formed candles with a range, WilliamsRLatest lies in [-100, 0] and
      is the formula applied to the newest close. */
  lemma WilliamsRLatestTracksNewestClose(highs: seq<real>, lows: seq<real>, closes: seq<real>, period: nat)
    requires |highs| == |lows| == |closes|
    requires 1 <= period <= |closes|
    requires forall i :: 0 <= i < |closes| ==> lows[i] <= closes[i] <= highs[i]
    requires MaxOf(highs[..period]) > MinOf(lows[..period])
    ensures WilliamsRLatest(highs, lows, closes, period).Some?
    ensures var r := WilliamsRLatest(highs, lows, closes, period).value;
      && r.Finite? && -100.0 <= r.v <= 0.0
      && r.v == (MaxOf(highs[..period]) - closes[0]) / (MaxOf(highs[..period]) - MinOf(lows[..period])) * -100.0
  {
    var hh := MaxOf(highs[..period]);
    var ll := MinOf(lows[..period]);
    assert highs[..period][0] == highs[0];
    assert lows[..period][0] == lows[0];
    FormulaBounded(hh, ll, closes[0]);
  }

  // ---------------------------------------------------------------------------
  // Ichimoku (calculateIchimoku / calculateIchimokuLine)

  datatype IchimokuSettings = IchimokuSettings(conversionPeriod: nat, basePeriod: nat, spanPeriod: nat, displacement: nat)

  /** The settings analyzeTrend passes (index.js:235-240). */
  const DefaultIchimoku := IchimokuSettings(9, 26, 52, 26)

  datatype IchimokuLines = IchimokuLines(tenkan: Num, kijun: Num, senkouA: Num, senkouB: Num)

  /** `(a + b) / 2` in JavaScript arithmetic. */
  function HalfSum(a: Num, b: Num): (r: Num)
    ensures a.Finite? && b.Finite? ==> r == Finite((a.v + b.v) / 2.0)
    ensures a.NaN? || b.NaN? ==> r.NaN?
    ensures a == NegInf && b == PosInf ==> r.NaN?
  {
    Div(Add(a, b), Finite(2.0))
  }

  /** Midpoint of the highest of the first `period` highs and the lowest of the first `period` lows. */
  function IchimokuLine(highs: seq<real>, lows: seq<real>, period: nat): (line: Num)
    ensures period >= 1 && |highs| > 0 && |lows| > 0 ==>
      line == Finite((MaxOf(Prefix(highs, period)) + MinOf(Prefix(lows, period))) / 2.0)
    ensures period == 0 || (|highs| == 0 && |lows| == 0) ==> line.NaN?
  {
    HalfSum(MathMax(Prefix(highs, period)), MathMin(Prefix(lows, period)))
  }

  /** Senkou span A averages tenkan and kijun; the displacement is not used. */
  function Ichimoku(highs: seq<real>, lows: seq<real>, settings: IchimokuSettings): (lines: IchimokuLines)
    ensures lines.tenkan == IchimokuLine(highs, lows, settings.conversionPeriod)
    ensures lines.kijun == IchimokuLine(highs, lows, settings.basePeriod)
    ensures lines.senkouB == IchimokuLine(highs, lows, settings.spanPeriod)
    ensures lines.senkouA == HalfSum(lines.tenkan, lines.kijun)
  {
    var tenkan := IchimokuLine(highs, lows, settings.conversionPeriod);
    var kijun := IchimokuLine(highs, lows, settings.basePeriod);
    IchimokuLines(
      tenkan,
      kijun,
      HalfSum(tenkan, kijun),
      IchimokuLine(highs, lows, settings.spanPeriod))
  }

  /** On a non-empty window of well-formed candles a line is finite and lies
      between the lowest low and the highest high of its period. */
  lemma IchimokuLineWithinRange(highs: seq<real>, lows: seq<real>, period: nat)
    requires 0 < |highs| == |lows|
    requires period >= 1
    requires LowsBelowHighs(highs, lows)
    ensures IchimokuLine(highs, lows, period).Finite?
    ensures MinOf(Prefix(lows, period)) <= IchimokuLine(highs, lows, period).v <= MaxOf(Prefix(highs, period))
  {
    var ph := Prefix(highs, period);
    var pl := Prefix(lows, period);
    assert ph[0] == highs[0] && pl[0] == lows[0];
    var hh, ll := MaxOf(ph), MinOf(pl);
    assert ll <= lows[0] <= highs[0] <= hh;
    assert IchimokuLine(highs, lows, period) == Finite((hh + ll) / 2.0);
    Midpoint(ll, hh);
  }

  lemma Midpoint(lo: real, hi: real)
    requires lo <= hi
    ensures lo <= (hi + lo) / 2.0 <= hi
  {
  }

  /** Senkou span A lies between tenkan and kijun, and every line within the window's range. */
  lemma IchimokuCloudBounds(highs: seq<real>, lows: seq<real>, settings: IchimokuSettings)
    requires 0 < |highs| == |lows|
    requires settings.conversionPeriod >= 1 && settings.basePeriod >= 1 && settings.spanPeriod >= 1
    requires LowsBelowHighs(highs, lows)
    ensures var lines := Ichimoku(highs, lows, settings);
      && lines.tenkan.Finite? && lines.kijun.Finite? && lines.senkouA.Finite? && lines.senkouB.Finite?
      && (lines.tenkan.v <= lines.senkouA.v <= lines.kijun.v || lines.kijun.v <= lines.senkouA.v <= lines.tenkan.v)
      && MinOf(lows) <= lines.senkouB.v <= MaxOf(highs)
  {
    IchimokuLineWithinRange(highs, lows, settings.conversionPeriod);
    IchimokuLineWithinRange(highs, lows, settings.basePeriod);
    IchimokuLineWithinRange(highs, lows, settings.spanPeriod);
    var ph := Prefix(highs, settings.spanPeriod);
    var pl := Prefix(lows, settings.spanPeriod);
    assert MaxOf(ph) in highs by { assert MaxOf(ph) in ph; }
    assert MinOf(pl) in lows by { assert MinOf(pl) in pl; }
  }

  // ---------------------------------------------------------------------------
  // Elder-Ray (calculateElderRay)

  /** Elder-Ray looks at the first 13 candles of the window. */
  const ElderRayWindow: nat := 13

  datatype ElderRayPower = ElderRayPower(bullPower: Num, bearPower: Num)

  /** Bull and bear power against a 13-period EMA of the closes, supplied by the caller. */
  function ElderRay(highs: seq<real>, lows: seq<real>, ema13: Num): (power: ElderRayPower)
    ensures ema13.Finite? && |highs| > 0 ==>
      power.bullPower == Finite(MaxOf(Prefix(highs, ElderRayWindow)) - ema13.v)
    ensures ema13.Finite? && |lows| > 0 ==>
      power.bearPower == Finite(MinOf(Prefix(lows, ElderRayWindow)) - ema13.v)
    ensures ema13.NaN? ==> power.bullPower.NaN? && power.bearPower.NaN?
  {
    ElderRayPower(
      Sub(MathMax(Prefix(highs, ElderRayWindow)), ema13),
      Sub(MathMin(Prefix(lows, ElderRayWindow)), ema13))
  }

  /** Bull power never falls below bear power: with a finite EMA their gap is the
      13-candle range whatever the EMA is, and for any EMA value bull power is
      never negative while bear power is positive. */
  lemma ElderRayBullAtLeastBear(highs: seq<real>, lows: seq<real>, ema13: Num)
    requires 0 < |highs| == |lows|
    requires LowsBelowHighs(highs, lows)
    ensures ema13.Finite? ==>
      var power := ElderRay(highs, lows, ema13);
      && power.bullPower.Finite? && power.bearPower.Finite?
      && power.bullPower.v - power.bearPower.v
         == MaxOf(Prefix(highs, ElderRayWindow)) - MinOf(Prefix(lows, ElderRayWindow))
      && power.bearPower.v <= power.bullPower.v
    ensures !(Less(ElderRay(highs, lows, ema13).bullPower, Finite(0.0))
              && Greater(ElderRay(highs, lows, ema13).bearPower, Finite(0.0)))
  {
    var ph := Prefix(highs, ElderRayWindow);
    var pl := Prefix(lows, ElderRayWindow);
    assert ph[0] == highs[0] && pl[0] == lows[0];
    assert MinOf(pl) <= lows[0] <= highs[0] <= MaxOf(ph);
  }
}
