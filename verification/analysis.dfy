/**
  One evaluation of analyzeTrend (index.js:252-560, 913-921): from the queried
  candle rows and the library's indicator values to a signal, or none.

  The rows are those of `SELECT close, open, high, low, volume FROM candles ...
  ORDER BY closeTime DESC LIMIT 50`, newest first. The values that come from
  the technicalindicators library arrive as opaque inputs.
 */
module Analysis {
  import opened Wrappers
  import opened JsNumber
  import opened Indicators
  import opened Scoring

  datatype Row = Row(close: real, open: real, high: real, low: real, volume: real)

  /** The values analyzeTrend takes from the indicator library (and from
      calculatePPO / calculateAO, which are built on it), as computed for this window. */
  datatype LibraryValues = LibraryValues(
    rsi: Num,
    ema10: Num,
    ema20: Num,
    adx: Num,
    atr: Num,
    volumeMA: Num,
    stochastic: Option<StochasticPoint>,
    mfi: Num,
    ppo: Num,
    ppoSignal: Num,
    vwap: Num,
    momentum: Num,
    obvMA: Num,
    aoCurrent: Num,
    aoPrevious: Num,
    ema13: Num)

  /** Below this many rows analyzeTrend stops without a signal (index.js:259). */
  const MinimumRows: nat := 5

  /** params.williamsRPeriod */
  const WilliamsRPeriod: nat := 14

  function Closes(rows: seq<Row>): (r: seq<real>)
    ensures |r| == |rows| && forall i :: 0 <= i < |rows| ==> r[i] == rows[i].close
  {
    seq(|rows|, i requires 0 <= i < |rows| => rows[i].close)
  }

  function Highs(rows: seq<Row>): (r: seq<real>)
    ensures |r| == |rows| && forall i :: 0 <= i < |rows| ==> r[i] == rows[i].high
  {
    seq(|rows|, i requires 0 <= i < |rows| => rows[i].high)
  }

  function Lows(rows: seq<Row>): (r: seq<real>)
    ensures |r| == |rows| && forall i :: 0 <= i < |rows| ==> r[i] == rows[i].low
  {
    seq(|rows|, i requires 0 <= i < |rows| => rows[i].low)
  }

  function Volumes(rows: seq<Row>): (r: seq<real>)
    ensures |r| == |rows| && forall i :: 0 <= i < |rows| ==> r[i] == rows[i].volume
  {
    seq(|rows|, i requires 0 <= i < |rows| => rows[i].volume)
  }

  /** The snapshot the rules read: the newest candle, the library values, and
      the hand-written indicators computed over the rows in query order. */
  function BuildSnapshot(rows: seq<Row>, lib: LibraryValues): (s: Snapshot)
    requires |rows| >= MinimumRows
    // the newest candle, and the volume of the one before it
    ensures s.lastClose == rows[0].close && s.lastOpen == rows[0].open
    ensures s.lastHigh == rows[0].high && s.lastLow == rows[0].low
    ensures s.currentVolume == rows[0].volume && s.previousVolume == rows[1].volume
    // the library values, passed through unchanged
    ensures s.rsi == lib.rsi && s.ema10 == lib.ema10 && s.ema20 == lib.ema20 && s.adx == lib.adx
    ensures s.atr == lib.atr && s.volumeMA == lib.volumeMA && s.stochastic == lib.stochastic
    ensures s.mfi == lib.mfi && s.ppo == lib.ppo && s.ppoSignal == lib.ppoSignal && s.vwap == lib.vwap
    ensures s.momentum == lib.momentum && s.obvMA == lib.obvMA
    ensures s.aoCurrent == lib.aoCurrent && s.aoPrevious == lib.aoPrevious
    // the hand-written indicators over the rows in query order
    ensures s.williamsR == WilliamsR(Highs(rows), Lows(rows), Closes(rows), WilliamsRPeriod)
    ensures s.obvLast == Obv(Closes(rows), Volumes(rows))[|rows| - 1]
    ensures s.elderRay == ElderRay(Highs(rows), Lows(rows), lib.ema13)
    ensures s.ichimoku == Ichimoku(Highs(rows), Lows(rows), DefaultIchimoku)
  {
    var closes := Closes(rows);
    var highs := Highs(rows);
    var lows := Lows(rows);
    var obv := Obv(closes, Volumes(rows));
    Snapshot(
      rows[0].close, rows[0].open, rows[0].high, rows[0].low, rows[0].volume, rows[1].volume,
      lib.rsi, lib.ema10, lib.ema20, lib.adx, lib.atr, lib.volumeMA, lib.stochastic, lib.mfi,
      lib.ppo, lib.ppoSignal, lib.vwap, lib.momentum, lib.obvMA, lib.aoCurrent, lib.aoPrevious,
      WilliamsR(highs, lows, closes, WilliamsRPeriod),
      obv[|obv| - 1],
      ElderRay(highs, lows, lib.ema13),
      Ichimoku(highs, lows, DefaultIchimoku))
  }

  /** The Williams %R the rules score reads only the window's oldest
      `WilliamsRPeriod` rows: two windows of the same size that agree there
      give the same value, whatever their newer rows hold. */
  lemma SnapshotWilliamsRIgnoresNewest(rows: seq<Row>, rows': seq<Row>, lib: LibraryValues)
    requires MinimumRows <= |rows| == |rows'|
    requires forall i :: 0 <= i < |rows| && |rows| - WilliamsRPeriod <= i ==> rows[i] == rows'[i]
    ensures BuildSnapshot(rows, lib).williamsR == BuildSnapshot(rows', lib).williamsR
  {
    if WilliamsRPeriod <= |rows| {
      WilliamsRIgnoresNewest(Highs(rows), Lows(rows), Closes(rows),
                             Highs(rows'), Lows(rows'), Closes(rows'), WilliamsRPeriod);
    }
  }

  /** `lastClose - atr * 1.5` (index.js:367) */
  function StopLossLevel(lastClose: real, atr: Num): (stop: Num)
    ensures atr.Finite? ==> stop == Finite(lastClose - atr.v * 1.5)
    ensures atr.NaN? ==> stop.NaN?
    ensures atr.PosInf? ==> stop.NegInf?
    ensures atr.NegInf? ==> stop.PosInf?
  {
    Sub(Finite(lastClose), Mul(atr, Finite(1.5)))
  }

  /** `lastClose + atr * 2` (index.js:368) */
  function TakeProfitLevel(lastClose: real, atr: Num): (target: Num)
    ensures atr.Finite? ==> target == Finite(lastClose + atr.v * 2.0)
    ensures atr.NaN? ==> target.NaN?
    ensures atr.PosInf? ==> target.PosInf?
    ensures atr.NegInf? ==> target.NegInf?
  {
    Add(Finite(lastClose), Mul(atr, Finite(2.0)))
  }

  /** The signal object of index.js:914-929, before it is stored. */
  datatype SignalDraft = SignalDraft(direction: Direction, entry: real, stopLoss: Num, takeProfit: Num, score: real)

  function Winner(d: Direction): Side {
    if d == Compra then Buy else Sell
  }

  function Loser(d: Direction): Side {
    if d == Compra then Sell else Buy
  }

  /** The decision and the signal object for one snapshot (index.js:537-560, 913-921):
      none on NEUTRO; otherwise a signal at the newest close, scored with the
      winning side's score, with the stop and target computed once, below and
      above the entry, whatever the direction.

      The library leaves the ATR undefined when it has too few candles (a
      non-finite `atr` here). A COMPRA or VENDA verdict then logs
      `atr.toFixed(4)` (index.js:548, 558), which throws, so the evaluation
      ends before the signal object is built: no signal. */
  function SignalFor(s: Snapshot): (r: Option<SignalDraft>)
    ensures r.Some? <==> FinalSignal(s).Signal? && s.atr.Finite?
    ensures r.Some? ==>
      && r.value.direction == FinalSignal(s).direction
      && r.value.entry == s.lastClose
      && r.value.score == Score(s, Winner(r.value.direction))
      && r.value.score > MinimumScore
      && r.value.score > Score(s, Loser(r.value.direction))
    ensures r.Some? ==> !HighVolatility(s)
    ensures r.Some? ==>
      && s.atr.Finite?
      && r.value.stopLoss == Finite(s.lastClose - s.atr.v * 1.5)
      && r.value.takeProfit == Finite(s.lastClose + s.atr.v * 2.0)
  {
    var verdict := FinalSignal(s);
    if verdict.Neutro? || !s.atr.Finite? then None
    else
      WinnerOutscores(s);
      Some(SignalDraft(
        verdict.direction,
        s.lastClose,
        StopLossLevel(s.lastClose, s.atr),
        TakeProfitLevel(s.lastClose, s.atr),
        Score(s, Winner(verdict.direction))))
  }

  /** The side a COMPRA or VENDA verdict names scored above the minimum and
      above the other side, on a calm bar. */
  lemma WinnerOutscores(s: Snapshot)
    requires FinalSignal(s).Signal?
    ensures Score(s, Winner(FinalSignal(s).direction)) > MinimumScore
    ensures Score(s, Winner(FinalSignal(s).direction)) > Score(s, Loser(FinalSignal(s).direction))
    ensures !HighVolatility(s)
  {
    var buy, sell := Score(s, Buy), Score(s, Sell);
    assert FinalSignal(s) == Decide(buy, sell, HighVolatility(s));
  }

  /** analyzeTrend: no signal on fewer than five rows, otherwise the signal of the window's snapshot. */
  function AnalyzeTrend(rows: seq<Row>, lib: LibraryValues): (r: Option<SignalDraft>)
    ensures |rows| < MinimumRows ==> r.None?
    ensures r.Some? ==> |rows| >= MinimumRows && r.value.entry == rows[0].close
  {
    if |rows| < MinimumRows then None else SignalFor(BuildSnapshot(rows, lib))
  }

  /** With a non-negative ATR the stored signal has stop <= entry <= target,
      for a VENDA signal as much as for a COMPRA one. */
  lemma StoredLevelsBracketEntry(s: Snapshot)
    requires SignalFor(s).Some?
    requires s.atr.Finite? && s.atr.v >= 0.0
    ensures var d := SignalFor(s).value;
      && d.stopLoss.Finite? && d.takeProfit.Finite?
      && d.stopLoss.v <= d.entry <= d.takeProfit.v
  {
  }

  /** The levels the VENDA log message prints (index.js:554-555) -- stop above and
      target below the entry -- and the stored ones for COMPRA. */
  function IntendedLevels(direction: Direction, entry: real, atr: Num): (levels: (Num, Num))
    ensures direction == Compra ==> levels == (StopLossLevel(entry, atr), TakeProfitLevel(entry, atr))
    ensures atr.Finite? && atr.v >= 0.0 ==>
      && levels.0.Finite? && levels.1.Finite?
      && (direction == Compra ==> levels.0.v <= entry <= levels.1.v)
      && (direction == Venda ==> levels.1.v <= entry <= levels.0.v)
    ensures atr.Finite? && atr.v > 0.0 ==> levels.0 != Finite(entry) && levels.1 != Finite(entry)
  {
    match direction
    case Compra => (StopLossLevel(entry, atr), TakeProfitLevel(entry, atr))
    case Venda => (Add(Finite(entry), Mul(atr, Finite(1.5))), Sub(Finite(entry), Mul(atr, Finite(2.0))))
  }

  /** SignalFor with the VENDA levels placed on the VENDA side: the same decision,
      entry and score; only a VENDA signal's stop and target differ. */
  function SignalForIntended(s: Snapshot): (r: Option<SignalDraft>)
    ensures r.Some? <==> SignalFor(s).Some?
    ensures r.Some? ==>
      && r.value.(stopLoss := SignalFor(s).value.stopLoss, takeProfit := SignalFor(s).value.takeProfit) == SignalFor(s).value
      && (r.value.direction == Compra ==> r == SignalFor(s))
      && (r.value.stopLoss, r.value.takeProfit) == IntendedLevels(r.value.direction, r.value.entry, s.atr)
  {
    match SignalFor(s)
    case None => None
    case Some(d) =>
      var levels := IntendedLevels(d.direction, d.entry, s.atr);
      Some(d.(stopLoss := levels.0, takeProfit := levels.1))
  }
}
