/**
  The risk gate and position sizing a signal passes before an order is sent:
  checkRiskConditions (index.js:1132-1171) and calculateOrderQuantity
  (index.js:1125-1129), with the limits of config.js.
 */
module Risk {
  import opened Wrappers
  import opened JsNumber
  import opened Scoring
  import opened Analysis
  import opened Lifecycle

  /** The risk fields of config.js. */
  datatype RiskConfig = RiskConfig(accountBalance: real, riskPercentage: real, maxDailyLoss: real, minRiskReward: real)

  /** config.js:4-7 */
  const Config := RiskConfig(1000.0, 1.0, 3.0, 1.5)

  // ---------------------------------------------------------------------------
  // The daily loss
  // ---------------------------------------------------------------------------

  const SecondsPerDay: int := 86400

  /** SQLite's `date(...)` of a timestamp, as a day number. */
  function Day(t: int): int {
    t / SecondsPerDay
  }

  /** The profit_loss of a row if it is a loss booked on `day`: the rows
      `WHERE date(timestamp) = date('now') AND profit_loss < 0` selects. */
  function LossOn(row: SignalRow, day: int): (loss: Option<real>)
    ensures loss.Some? ==>
      && loss.value < 0.0
      && Day(row.timestamp) == day
      && row.result.Some? && row.result.value.profitLoss == Some(loss.value)
    ensures row.result.None? || Day(row.timestamp) != day ==> loss.None?
  {
    if row.result.Some? && row.result.value.profitLoss.Some? && row.result.value.profitLoss.value < 0.0
       && Day(row.timestamp) == day
    then Some(row.result.value.profitLoss.value)
    else None
  }

  /** `SELECT SUM(profit_loss) ...` (index.js:1134-1139): the sum of the day's
      losses, NULL when there is none. */
  function DailyLossSum(rows: seq<SignalRow>, day: int): (sum: Option<real>)
    ensures sum.None? <==> forall i :: 0 <= i < |rows| ==> LossOn(rows[i], day).None?
    ensures sum.Some? ==> sum.value < 0.0
    ensures forall i :: 0 <= i < |rows| && LossOn(rows[i], day).Some? ==>
      sum.Some? && sum.value <= LossOn(rows[i], day).value
  {
    if |rows| == 0 then None
    else
      var rest := DailyLossSum(rows[..|rows| - 1], day);
      match LossOn(rows[|rows| - 1], day)
      case None => rest
      case Some(loss) => Some(rest.GetOr(0.0) + loss)
  }

  /** SQL's SUM over two groups of rows: NULL when both are NULL, else the
      sum with NULL counting as nothing. */
  function AddSums(a: Option<real>, b: Option<real>): Option<real> {
    if a.None? && b.None? then None else Some(a.GetOr(0.0) + b.GetOr(0.0))
  }

  /** Adding one row to the table adds its loss of the day, if it has one. */
  lemma DailyLossSumSnoc(rows: seq<SignalRow>, row: SignalRow, day: int)
    ensures DailyLossSum(rows + [row], day) == AddSums(DailyLossSum(rows, day), LossOn(row, day))
  {
    assert (rows + [row])[..|rows|] == rows;
  }

  lemma AddSumsAssociative(a: Option<real>, b: Option<real>, c: Option<real>)
    ensures AddSums(AddSums(a, b), c) == AddSums(a, AddSums(b, c))
  {
  }

  /** The daily loss of a table is the daily loss of its first rows plus that of
      the rest: every losing row of the day is counted once, in any split. */
  lemma {:induction false} DailyLossSumAppend(rows: seq<SignalRow>, more: seq<SignalRow>, day: int)
    ensures DailyLossSum(rows + more, day) == AddSums(DailyLossSum(rows, day), DailyLossSum(more, day))
    decreases |more|
  {
    if |more| == 0 {
      assert rows + more == rows;
    } else {
      var front, last := more[..|more| - 1], more[|more| - 1];
      assert more == front + [last];
      assert rows + more == (rows + front) + [last];
      DailyLossSumAppend(rows, front, day);
      DailyLossSumSnoc(rows + front, last, day);
      DailyLossSumSnoc(front, last, day);
      AddSumsAssociative(DailyLossSum(rows, day), DailyLossSum(front, day), LossOn(last, day));
    }
  }

  /** One row contributes exactly its own loss of the day, if it has one. */
  lemma DailyLossOfOneRow(row: SignalRow, day: int)
    ensures DailyLossSum([row], day) == LossOn(row, day)
  {
    assert [row][..0] == [];
  }

  /** What the callback of the daily-loss query receives. */
  datatype LossQuery = QueryFailed | LossRow(dailyLoss: Option<real>)

  /** `Math.abs(row?.daily_loss || 0)` */
  function DailyLoss(sum: Option<real>): (loss: real)
    ensures loss >= 0.0
    ensures sum.None? ==> loss == 0.0
    ensures sum.Some? ==> loss == if sum.value < 0.0 then -sum.value else sum.value
  {
    var v := sum.GetOr(0.0);
    if v < 0.0 then -v else v
  }

  // ---------------------------------------------------------------------------
  // checkRiskConditions
  // ---------------------------------------------------------------------------

  /** `Math.abs((take_profit - entry_price) / (entry_price - stop_loss))` */
  function RiskRewardRatio(d: SignalDraft): (ratio: Num)
    ensures d.stopLoss.Finite? && d.takeProfit.Finite? && d.stopLoss.v != d.entry ==>
      && ratio.Finite? && ratio.v >= 0.0
      && ratio.v * Distance(d.entry, d.stopLoss.v) == Distance(d.takeProfit.v, d.entry)
    ensures d.stopLoss == Finite(d.entry) && d.takeProfit == Finite(d.entry) ==> ratio.NaN?
    ensures d.stopLoss == Finite(d.entry) && d.takeProfit.Finite? && d.takeProfit.v != d.entry ==> ratio == PosInf
    ensures d.stopLoss.NaN? || d.takeProfit.NaN? ==> ratio.NaN?
  {
    if d.stopLoss.Finite? && d.takeProfit.Finite? && d.stopLoss.v != d.entry then
      QuotientTimesDivisor(d.takeProfit.v - d.entry, d.entry - d.stopLoss.v);
      Abs(Div(Sub(d.takeProfit, Finite(d.entry)), Sub(Finite(d.entry), d.stopLoss)))
    else
      Abs(Div(Sub(d.takeProfit, Finite(d.entry)), Sub(Finite(d.entry), d.stopLoss)))
  }

  /** `|a / b| * |b| == |a|` for a non-zero b. */
  lemma QuotientTimesDivisor(a: real, b: real)
    requires b != 0.0
    ensures var q := a / b; (if q < 0.0 then -q else q) * Distance(b, 0.0) == Distance(a, 0.0)
  {
    var q := a / b;
    assert a == q * b;
  }

  /** The boolean checkRiskConditions resolves with: false on a failed query or
      when the day's losses reach maxDailyLoss, false when the ratio is below
      minRiskReward, true otherwise. */
  function CheckRiskConditions(q: LossQuery, d: SignalDraft, cfg: RiskConfig): (ok: bool)
    ensures q.QueryFailed? ==> !ok
    ensures q.LossRow? && DailyLoss(q.dailyLoss) >= cfg.maxDailyLoss ==> !ok
    ensures ok ==> DailyLoss(q.dailyLoss) < cfg.maxDailyLoss
    ensures d.stopLoss.Finite? && d.takeProfit.Finite? && d.stopLoss.v != d.entry ==>
      (ok <==> q.LossRow? && DailyLoss(q.dailyLoss) < cfg.maxDailyLoss &&
               Distance(d.takeProfit.v, d.entry) >= cfg.minRiskReward * Distance(d.entry, d.stopLoss.v))
  {
    if q.QueryFailed? then false
    else if DailyLoss(q.dailyLoss) >= cfg.maxDailyLoss then false
    else
      var ratio := RiskRewardRatio(d);
      RatioAgainstMinimum(d, cfg.minRiskReward);
      !Less(ratio, Finite(cfg.minRiskReward))
  }

  /** `|a - b|` */
  function Distance(a: real, b: real): (r: real)
    ensures r >= 0.0 && (r == a - b || r == b - a)
  {
    if a >= b then a - b else b - a
  }

  /** With finite levels and a stop away from the entry, `ratio < min` is exactly
      `reward < min * risk`. */
  lemma RatioAgainstMinimum(d: SignalDraft, min: real)
    ensures d.stopLoss.Finite? && d.takeProfit.Finite? && d.stopLoss.v != d.entry ==>
      (Less(RiskRewardRatio(d), Finite(min)) <==>
         Distance(d.takeProfit.v, d.entry) < min * Distance(d.entry, d.stopLoss.v))
  {
    if d.stopLoss.Finite? && d.takeProfit.Finite? && d.stopLoss.v != d.entry {
      var reward := d.takeProfit.v - d.entry;
      var risk := d.entry - d.stopLoss.v;
      assert Sub(d.takeProfit, Finite(d.entry)) == Finite(reward);
      assert Sub(Finite(d.entry), d.stopLoss) == Finite(risk);
      assert RiskRewardRatio(d) == Abs(Finite(reward / risk));
      QuotientMagnitude(reward, risk, min);
    }
  }

  lemma QuotientMagnitude(reward: real, risk: real, min: real)
    requires risk != 0.0
    ensures var q := reward / risk;
      (if q < 0.0 then -q else q) < min <==> Distance(reward, 0.0) < min * Distance(risk, 0.0)
  {
    var q := reward / risk;
    var m := Distance(risk, 0.0);
    assert m > 0.0;
    assert Distance(reward, 0.0) == (if q < 0.0 then -q else q) * m by {
      assert reward == q * risk;
    }
    ScaleStrict(if q < 0.0 then -q else q, min, m);
  }

  lemma ScaleStrict(a: real, b: real, m: real)
    requires m > 0.0
    ensures a < b <==> a * m < b * m
  {
    if a < b {
      assert (b - a) * m > 0.0;
    } else {
      assert (a - b) * m >= 0.0;
    }
  }

  /** A day that has already lost maxDailyLoss percent stops all signals:
      losses of -1% and -2% against the limit of 3%. */
  lemma DailyLimitStopsTrading(d: SignalDraft, now: int)
    ensures var rows := [LossRow1(now), LossRow2(now)];
      && DailyLossSum(rows, Day(now)) == Some(-3.0)
      && !CheckRiskConditions(LossRow(DailyLossSum(rows, Day(now))), d, Config)
  {
    var rows := [LossRow1(now), LossRow2(now)];
    assert rows[..1] == [LossRow1(now)];
    assert DailyLossSum(rows[..1], Day(now)) == Some(-1.0);
  }

  function LossRow1(now: int): SignalRow {
    SignalRow(1, now, "ethusdt", Some(Compra), Some(100.0), Some(99.0), Some(102.0), 6.0,
      Some(Resolution(StopLoss, Some(99.0), now, Some(-1.0))))
  }

  function LossRow2(now: int): SignalRow {
    SignalRow(2, now, "ethusdt", Some(Compra), Some(100.0), Some(98.0), Some(104.0), 6.0,
      Some(Resolution(StopLoss, Some(98.0), now, Some(-2.0))))
  }

  /** analyzeTrend puts the target 2 ATR and the stop 1.5 ATR from the entry, so
      every signal it builds with a positive ATR has a ratio of 4/3 -- below
      config.js's minimum of 1.5: the gate rejects them all. */
  lemma EngineSignalsRejectedAtDefault(s: Snapshot, q: LossQuery)
    requires SignalFor(s).Some? && s.atr.Finite? && s.atr.v > 0.0
    ensures RiskRewardRatio(SignalFor(s).value) == Finite(4.0 / 3.0)
    ensures !CheckRiskConditions(q, SignalFor(s).value, Config)
  {
    var d := SignalFor(s).value;
    var a := s.atr.v;
    assert Sub(d.takeProfit, Finite(d.entry)) == Finite(a * 2.0);
    assert Sub(Finite(d.entry), d.stopLoss) == Finite(a * 1.5);
    FixedRatio(a);
  }

  lemma FixedRatio(a: real)
    requires a > 0.0
    ensures (a * 2.0) / (a * 1.5) == 4.0 / 3.0
  {
    assert (a * 1.5) * (4.0 / 3.0) == a * 2.0;
  }

  // ---------------------------------------------------------------------------
  // A NaN ratio passes the gate
  // ---------------------------------------------------------------------------

  /** A signal whose stop and target both sit on the entry has no reward and no
      risk; 0/0 is NaN, `NaN < 1.5` is false, and the gate approves it. */
  lemma ZeroRangeSignalApproved(direction: Direction, entry: real, score: real)
    ensures var d := SignalDraft(direction, entry, Finite(entry), Finite(entry), score);
      && RiskRewardRatio(d).NaN?
      && CheckRiskConditions(LossRow(None), d, Config)
  {
  }

  /** The engine reaches that case with an ATR of exactly 0: the volatility
      filter then passes only a flat newest candle, and the stop and target
      both sit on the entry, so its signal is approved. */
  lemma ZeroAtrSignalApproved(s: Snapshot)
    requires SignalFor(s).Some? && s.atr == Finite(0.0)
    ensures s.lastHigh <= s.lastLow
    ensures RiskRewardRatio(SignalFor(s).value).NaN?
    ensures CheckRiskConditions(LossRow(None), SignalFor(s).value, Config)
  {
    var d := SignalFor(s).value;
    assert !HighVolatility(s);
    assert d == SignalDraft(d.direction, d.entry, Finite(d.entry), Finite(d.entry), d.score);
    ZeroRangeSignalApproved(d.direction, d.entry, d.score);
  }

  /** checkRiskConditions approving only ratios that are numbers at least
      minRiskReward: `ratio >= min` in place of `!(ratio < min)`. */
  function CheckRiskConditionsIntended(q: LossQuery, d: SignalDraft, cfg: RiskConfig): (ok: bool)
    ensures ok ==> q.LossRow? && DailyLoss(q.dailyLoss) < cfg.maxDailyLoss
    ensures ok ==> !RiskRewardRatio(d).NaN? && GreaterEq(RiskRewardRatio(d), Finite(cfg.minRiskReward))
    ensures ok ==> CheckRiskConditions(q, d, cfg)
    ensures !RiskRewardRatio(d).NaN? ==> ok == CheckRiskConditions(q, d, cfg)
  {
    if q.QueryFailed? then false
    else if DailyLoss(q.dailyLoss) >= cfg.maxDailyLoss then false
    else GreaterEq(RiskRewardRatio(d), Finite(cfg.minRiskReward))
  }

  /** With a positive minimum, an approved signal with finite levels has a
      target away from its entry: some reward is at stake. */
  lemma IntendedGateDemandsReward(q: LossQuery, d: SignalDraft, cfg: RiskConfig)
    requires cfg.minRiskReward > 0.0
    requires d.stopLoss.Finite? && d.takeProfit.Finite?
    requires CheckRiskConditionsIntended(q, d, cfg)
    ensures d.takeProfit.v != d.entry
  {
  }

  // ---------------------------------------------------------------------------
  // calculateOrderQuantity
  // ---------------------------------------------------------------------------

  /** `riskPerTrade / entryPrice`, where `riskPerTrade = accountBalance * (riskPercentage / 100)`. */
  function OrderQuantity(cfg: RiskConfig, entry: real): (q: Num)
    ensures entry != 0.0 ==> q.Finite? && q.v * entry == cfg.accountBalance * (cfg.riskPercentage / 100.0)
    ensures entry == 0.0 ==> !q.Finite?
  {
    var riskPerTrade := cfg.accountBalance * (cfg.riskPercentage / 100.0);
    Div(Finite(riskPerTrade), Finite(entry))
  }

  /** The string `toFixed(6)` makes of a number: a count of millionths, or the
      text of NaN or an infinity. */
  datatype Fixed = Millionths(units: int) | NotFinite(n: Num)

  /** `x.toFixed(6)`: the nearest count of millionths, ties away from zero
      (toFixed rounds the magnitude half up and then puts the sign back). */
  function ToFixed6(n: Num): (f: Fixed)
    ensures n.Finite? <==> f.Millionths?
    ensures f.Millionths? ==>
      && (f.units as real) - 0.5 <= n.v * 1000000.0 <= (f.units as real) + 0.5
      && (n.v * 1000000.0 == (f.units as real) - 0.5 ==> n.v > 0.0)
      && (n.v * 1000000.0 == (f.units as real) + 0.5 ==> n.v < 0.0)
  {
    if !n.Finite? then NotFinite(n)
    else
      var scaled := n.v * 1000000.0;
      if scaled >= 0.0 then Millionths((scaled + 0.5).Floor)
      else Millionths(-((-scaled + 0.5).Floor))
  }

  /** The quantity sendOrder receives: under config.js, a 10-unit budget divided
      by the entry price, to the nearest millionth. */
  lemma DefaultQuantity(entry: real)
    requires entry > 0.0
    ensures OrderQuantity(Config, entry) == Finite(10.0 / entry)
    ensures var f := ToFixed6(OrderQuantity(Config, entry));
      f.Millionths? && (f.units as real) - 0.5 <= 10000000.0 / entry <= (f.units as real) + 0.5
  {
    assert 1000.0 * (1.0 / 100.0) == 10.0;
    assert 10.0 / entry * 1000000.0 == 10000000.0 / entry;
  }
}
