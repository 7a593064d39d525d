# BINANCEBOT decision core, in Dafny

This project models the decision logic of the BINANCEBOT trading bot (`index.js`, with
the limits of `config.js`). That logic runs from a window of closed candles to a signal
that is stored, resolved and gated. The model covers:

- **Hand-written indicators** (`indicators.dfy`): On-Balance Volume, Williams %R,
  Ichimoku and Elder-Ray. Each keeps the source's indexing into the newest-first window.
- **Scoring engine** (`scoring.dfy`): the fifteen weighted rule applications of
  `analyzeTrend`, in source order. The Williams %R rule appears twice, because the code
  applies it twice. After the rules comes the COMPRA / VENDA / NEUTRO decision, with its
  minimum score of 5 and its high-volatility veto.
- **One evaluation** (`analysis.dfy`): from the candle rows and the library indicator
  values to the signal object. That object holds the entry, the ATR-based stop and
  target, and the score.
- **Signal lifecycle** (`lifecycle.dfy`):
  - the row `registerSignal` stores;
  - the candle queries;
  - `analyzeSignalResult`, which resolves a row to STOP_LOSS or TAKE_PROFIT at the first
    candle that crosses one of its levels;
  - the pending pass `checkPendingSignals`;
  - the trailing stop `updateTrailingStop`.
- **Risk** (`risk.dfy`): the gate `checkRiskConditions` and the sizing
  `calculateOrderQuantity`. The gate checks the daily loss limit and the minimum
  risk/reward ratio. Sizing includes the `toFixed(6)` rounding.

`js_number.dfy` models JavaScript numbers: finite values, NaN and the infinities.
Every comparison with NaN is false, 0/0 is NaN, and `Math.max()` of nothing is
-Infinity. `wrappers.dfy` holds the `Option` type.

Stored `REAL` columns are `Option<real>`, with `None` for NULL. JavaScript's `<=`,
`>=` and `-` read NULL as 0. The values the technicalindicators library computes
(RSI, the EMAs, ADX, ATR, Stochastic, MFI, PPO, VWAP, ROC, the Awesome Oscillator and
the averages) are opaque inputs of type `Num`.

Points where the code's behaviour is easy to misread:

- The Williams %R rule is scored twice per evaluation (index.js:466-474 and
  index.js:500-506).
- A flat window (every high, low and close the same) gives Williams %R = 0/0 = NaN,
  not 0.
- OBV is non-decreasing when the closes are and the volumes are non-negative. The
  converse holds only for positive volumes: with a zero volume, a falling close leaves
  OBV unchanged.
- The VENDA stop and target are not mirrored. The signal object always carries
  `lastClose - 1.5·ATR` and `lastClose + 2·ATR` (index.js:367-368); only the log message
  prints mirrored levels. See the finding at index.js:367-368.
- The stored signal timestamp is `datetime('now')`, not the candle's close time.
- While the library has too few candles for an ATR, a COMPRA or VENDA verdict still
  ends with no signal: its log line calls `atr.toFixed(4)` (index.js:548, 558) on
  `undefined`, which throws before the signal object is built. The throw escapes the
  `db.all` callback, so it ends more than the evaluation (see "Left out").

## Model

| member | source | states |
|---|---|---|
| Indicators.MaxOf | index.js:192 | `Math.max` of a non-empty list returns one of its entries, and no entry exceeds it |
| Indicators.MinOf | index.js:193 | `Math.min` of a non-empty list returns one of its entries, and no entry is below it |
| Indicators.MathMax | index.js:192 | `Math.max(...xs)` is -Infinity exactly for no arguments; otherwise a finite entry of the list that no entry exceeds |
| Indicators.MathMin | index.js:193 | `Math.min(...xs)` is +Infinity exactly for no arguments; otherwise a finite entry of the list that no entry is below |
| Indicators.Prefix | index.js:1007-1008 | `slice(0, n)` is the first n entries, or the whole list when it has fewer |
| Indicators.Obv | index.js:943-957 | one OBV entry per candle; the first is the first volume; each later entry adds the volume on a higher close, subtracts it on a lower one, and carries the previous value on an equal one |
| Indicators.ObvNonDecreasing | index.js:946-954 | with non-decreasing closes and non-negative volumes, OBV never decreases |
| Indicators.ObvNonDecreasingOnlyIfClosesAre | index.js:946-954 | with positive volumes, OBV non-decreasing implies the closes are non-decreasing |
| Indicators.Window | index.js:192-193 | `slice(i - period + 1, i + 1)` has exactly `period` entries |
| Indicators.WilliamsR | index.js:187-202 | null exactly when there are fewer closes than the period; otherwise the value of the last loop iteration, the window that ends at the highest index |
| Indicators.WilliamsRBounded | index.js:192-197 | on candles with low ≤ close ≤ high and a window with some range, %R is a finite number in [-100, 0] |
| Indicators.FormulaBounded | index.js:196-197 | with the close between the lowest low and a higher highest high, `((hh - close) / (hh - ll)) * -100` is finite, equals that quotient times -100 and lies in [-100, 0] |
| Indicators.WilliamsRFlatWindowIsNaN | index.js:197 | when every candle has the same price, the formula divides 0 by 0 and gives NaN |
| Indicators.WilliamsRIgnoresNewest | index.js:191-201 | two windows that agree on their last `period` indices (the oldest candles of a newest-first window) give the same %R, whatever the newest candles are |
| Indicators.SameLastWindow | index.js:191-201 | arrays with the same last window of highs and lows and the same last close give the same %R |
| Indicators.WilliamsRFormula | index.js:197 | with a range, `((hh - close) / (hh - ll)) * -100` is that finite number; with no range it is NaN when the close equals the high, and -Infinity or +Infinity when the close is below or above it |
| Indicators.WilliamsRLatest | index.js:187-202 | corrected: %R of the newest `period` candles; null exactly when there are fewer closes than the period |
| Indicators.WilliamsRLatestIsChronological | index.js:187-202 | corrected %R on a newest-first window equals the source's formula on the same window put oldest-first |
| Indicators.WilliamsRLatestTracksNewestClose | index.js:192-197 | corrected %R is a finite number in [-100, 0], computed from the newest close and the highs and lows of the newest `period` candles |
| Indicators.HalfSum | index.js:1009 | `(a + b) / 2` is the finite midpoint of two finite numbers, NaN when either is NaN, and NaN for -Infinity plus +Infinity |
| Indicators.IchimokuLine | index.js:1006-1010 | with a positive period and candles, the line is the finite midpoint of the highest high and lowest low of the first `period` candles; with period 0 or no candles it is NaN |
| Indicators.Ichimoku | index.js:986-1004 | tenkan, kijun and senkou B are the Ichimoku line over 9, 26 and 52 candles, and senkou A is the midpoint of tenkan and kijun |
| Indicators.IchimokuLineWithinRange | index.js:1006-1010 | an Ichimoku line is a finite midpoint between the lowest low and the highest high of its first `period` candles |
| Indicators.IchimokuCloudBounds | index.js:986-1004 | the four Ichimoku lines are finite; senkou A lies between tenkan and kijun; senkou B lies within its window's range |
| Indicators.ElderRay | index.js:975-984 | with a finite EMA13 and candles, bull power is the highest of the first 13 highs minus EMA13 and bear power the lowest of the first 13 lows minus EMA13; a NaN EMA13 makes both NaN |
| Indicators.ElderRayBullAtLeastBear | index.js:975-984 | bull power minus bear power is the 13-candle range, so bear ≤ bull and "bull < 0 and bear > 0" never holds |
| Scoring.RsiRule | index.js:332-336 | RSI above 70 adds exactly 2 to the sell score; RSI below 30 adds exactly 2 to the buy score; otherwise, NaN included, nothing |
| Scoring.EmaRule | index.js:339-351 | short EMA above long EMA with the close above the short EMA votes buy; the mirror votes sell; the weight is 2 exactly when volume is above its average, else 1; otherwise nothing |
| Scoring.HighVolatility | index.js:354-355 | the bar is volatile exactly when its high-low range exceeds twice a finite ATR, or the ATR is -Infinity |
| Scoring.AdxRule | index.js:358-364 | a vote exactly when ADX is above 25, of 1 point, to buy exactly when EMA10 is above EMA20 and to sell otherwise |
| Scoring.StochasticRule | index.js:402-410 | 1.5 to buy exactly when a Stochastic point exists with %K below 20 and above %D; 1.5 to sell exactly when %K is above 80 and below %D; otherwise nothing |
| Scoring.MfiRule | index.js:413-418 | 1 to buy exactly when MFI is below 20; 1 to sell exactly when MFI is above 80; otherwise nothing |
| Scoring.PpoRule | index.js:421-425 | always 1 point: to buy exactly when PPO is above its signal line, to sell otherwise (NaN included) |
| Scoring.VwapRule | index.js:428-433 | always 1 point: to buy exactly when the close is above VWAP, to sell otherwise |
| Scoring.VolumeChangeRule | index.js:436-443 | a vote exactly when volume rose more than 20% on the previous candle, of 1 point, to buy exactly when the candle closed above its open and to sell otherwise |
| Scoring.VolumeChange | index.js:436 | with a non-zero previous volume, the finite percentage change; with a zero one, NaN for a zero current volume and the infinity of the current volume's sign otherwise |
| Scoring.MomentumRule | index.js:451-455 | always 0.5 points: to buy exactly when the rate of change is positive, to sell otherwise |
| Scoring.WilliamsRRule | index.js:466-474 | 1.5 to buy exactly when %R exists and is below -80; 1.5 to sell exactly when it exists and is above -20; otherwise nothing |
| Scoring.ObvRule | index.js:509-513 | always 1 point: to buy exactly when the latest OBV is above its moving average, to sell otherwise |
| Scoring.AwesomeOscillatorRule | index.js:516-520 | 2 to buy exactly when AO crosses zero upwards (current above 0, previous below 0); 2 to sell exactly on the downward cross; otherwise nothing |
| Scoring.ElderRayRule | index.js:523-527 | 1 to buy exactly when bull power is positive and bear power negative; 1 to sell exactly on the reverse signs; otherwise nothing |
| Scoring.IchimokuRule | index.js:530-534 | 2 to buy exactly when the close is above both senkou spans; 2 to sell exactly when it is below both; otherwise nothing |
| Scoring.Rules | index.js:332-534 | one evaluation applies fifteen rules, and the two at positions 9 and 10 are both the Williams %R rule |
| Scoring.RulesVoteWellFormed | index.js:332-534 | every rule application adds either nothing or a positive weight |
| Scoring.ScoresOnlyIncrease | index.js:332-534 | both accumulators start at 0, and applying more rules never lowers them |
| Scoring.ScoresNonNegative | index.js:332-534 | scoreCompra and scoreVenda end non-negative |
| Scoring.ScoreExpanded | index.js:332-534 | each score is the sum of what the fifteen applications add to that side |
| Scoring.Score | index.js:332-534 | a side's score is never negative |
| Scoring.WilliamsRCountsTwice | index.js:466-506 | together the two Williams %R applications add 0 or exactly 3 points to one side only: 3 to the buy score exactly when %R < -80, and 3 to the sell score exactly when %R > -20 |
| Scoring.ScoreTotals | index.js:332-534 | each score is at most 20, the two together are between 3.5 and 20, and at least 3.5 points are always cast |
| Scoring.Decide | index.js:537-560 | COMPRA exactly when the buy score exceeds 5 and the sell score on a calm bar; VENDA is the mirror; a tie or a high-volatility bar gives NEUTRO |
| Scoring.FinalSignal | index.js:537-560 | COMPRA exactly when the buy score is above 5 and above the sell score on a calm bar; VENDA exactly the mirror |
| Scoring.SignalNeedsConditionalVote | index.js:537-550 | no signal is issued unless some conditional rule votes for its side, because the always-voting rules bring at most 3.5 points |
| Scoring.AllBuyConditionsGiveCompra | index.js:332-542 | when every buy condition holds, the buy score is 20 and the sell score 0; the result is COMPRA on a calm bar and NEUTRO on a volatile one |
| Scoring.DuplicateWilliamsRDecides | index.js:466-506 | a concrete snapshot where the second Williams %R application turns NEUTRO (4.0 points) into COMPRA (5.5 points) |
| Analysis.BuildSnapshot | index.js:264-268 | the rules read the newest row's close, open, high, low and volume and the previous row's volume; %R, OBV, Elder-Ray and Ichimoku are the hand-written indicators over the rows; every library value is passed through unchanged |
| Analysis.SnapshotWilliamsRIgnoresNewest | index.js:191-201 | two row windows of the same length that agree on their oldest 14 rows give the same %R, whatever the newer rows hold |
| Analysis.StopLossLevel | index.js:367 | `lastClose - atr * 1.5` in JavaScript arithmetic: the finite value for a finite ATR, NaN for NaN, and -Infinity or +Infinity for +Infinity or -Infinity |
| Analysis.TakeProfitLevel | index.js:368 | `lastClose + atr * 2`: the finite value for a finite ATR, NaN for NaN, and the infinity of the ATR's sign otherwise |
| Analysis.SignalFor | index.js:913-921 | a signal exists exactly when the decision is not NEUTRO and the ATR is defined; with an undefined ATR the log's `atr.toFixed(4)` (index.js:548, 558) throws before the object is built. The signal's direction is the decision and its entry the newest close. Its score is the winning side's score, above 5 and above the other side's, and the bar is calm. The stop is `close - 1.5·ATR` and the target `close + 2·ATR` for both directions |
| Analysis.WinnerOutscores | index.js:537-560 | the side a COMPRA or VENDA verdict names scored above 5 and above the other side, on a calm bar |
| Analysis.AnalyzeTrend | index.js:250-262 | fewer than five rows give no signal; a signal's entry is the newest row's close |
| Analysis.StoredLevelsBracketEntry | index.js:367-368 | with a non-negative ATR, every stored signal, VENDA included, has stop ≤ entry ≤ target |
| Analysis.IntendedLevels | index.js:552-555 | corrected: VENDA levels as the VENDA log message prints them, stop above and target below the entry; COMPRA unchanged; with a positive ATR neither level sits on the entry |
| Analysis.SignalForIntended | index.js:913-921 | corrected: same decision, entry and score as SignalFor; only a VENDA signal's stop and target differ |
| Lifecycle.Stored | index.js:636-644 | a number is stored as itself; NaN is stored as NULL |
| Lifecycle.Register | index.js:625-644 | as written: the direction, entry, stop and target are stored NULL; the symbol and score are stored; the result is NULL |
| Lifecycle.RegisterIntended | index.js:625-644 | corrected: the row carries the signal's own direction, entry, stop and target |
| Lifecycle.Trigger | index.js:689-719 | for COMPRA: STOP_LOSS exactly when close ≤ stop, TAKE_PROFIT exactly when stop < close and close ≥ target; VENDA is the mirror; a row without a type never triggers |
| Lifecycle.FirstTrigger | index.js:688-720 | the first candle that triggers, scanning in order, or none when no candle does |
| Lifecycle.Resolve | index.js:680-741 | no update exactly when no candle triggers; otherwise the first triggering candle gives the outcome. The exit price is the crossed level, the exit time that candle's time, and the profit/loss the signed return on that level |
| Lifecycle.ProfitLoss | index.js:695-716 | with a positive entry the profit/loss is finite; it is positive exactly when the exit is above the entry for COMPRA (below for VENDA) and negative exactly in the opposite case; a zero entry gives no finite value |
| Lifecycle.ExampleStopLoss | index.js:689-695 | COMPRA 100/95/110 with closes 101 then 94 stops out at 95 for -5% |
| Lifecycle.ExampleTakeProfit | index.js:696-701 | the same signal with closes 101 then 111 exits at 110 for +10% |
| Lifecycle.OutcomeMatchesProfitSign | index.js:689-719 | with protective levels and a positive entry, STOP_LOSS never books a gain and TAKE_PROFIT never a loss |
| Lifecycle.VendaBuySideLevelsResolveAtOnce | index.js:704-719 | a VENDA row with its stop at or below its target is resolved by the very first later candle |
| Lifecycle.VendaStopLossReportsProfit | index.js:704-711 | the VENDA signal 100/98.5/102 "stops out" on an unchanged close of 100 with a profit of 1.5% |
| Lifecycle.RegisteredSignalsNeverResolve | index.js:636-643 | as written, no stored signal is ever resolved, whatever the candles |
| Lifecycle.IntendedRowResolvesOnCross | index.js:689-719 | a row stored with its own keys and finite levels is resolved exactly when some later close reaches its stop or target |
| Lifecycle.Matching | index.js:670-677 | the candles of the symbol strictly after the signal's time, no others |
| Lifecycle.MatchingSnoc | index.js:670-674 | a row appended to the table appends its candle, if it matches, at the end of the matching candles |
| Lifecycle.MatchingOfOneRow | index.js:670-674 | a one-row table matches that row's candle or nothing |
| Lifecycle.MatchingAppend | index.js:670-674 | the matching candles of a table split in two are those of the first part followed by those of the second: one candle per matching row, in table order, repeats kept |
| Lifecycle.InsertByTime | index.js:675 | inserting into a time-ordered list keeps it ordered and adds exactly that candle |
| Lifecycle.SortByTime | index.js:675 | `ORDER BY timestamp ASC` is a time-ordered permutation of the matching candles |
| Lifecycle.LaterCandles | index.js:670-677 | at most twenty matching candles, in time order; as a multiset they are part of the matching candles, and every matching candle or copy left out is no earlier than every candle kept, so these are the earliest twenty |
| Lifecycle.EarliestOf | index.js:675-676 | the first `n` candles of a time-ordered list are time-ordered, part of its multiset, and no later than any candle or copy left out |
| Lifecycle.PrefixIsEarliest | index.js:675-676 | every candle left out of a prefix of a time-ordered list is no earlier than every candle kept |
| Lifecycle.PrefixIsEarliestCopies | index.js:675-676 | a prefix of a time-ordered list is part of its multiset, and every copy left out is no earlier than every candle kept |
| Lifecycle.LatestClose | index.js:1025-1035 | none exactly when no candle matches; otherwise the close of a matching candle that no other matching candle follows |
| Lifecycle.CheckRow | index.js:669-741 | the pass changes only a row's result; a row already resolved or younger than fifteen minutes is untouched; a pending row gets what Resolve gives on its later candles |
| Lifecycle.AwaitingResult | index.js:649-653 | a row is selected exactly when it has no result and is at least fifteen minutes old |
| Lifecycle.CheckPendingSignals | index.js:746-763 | every row of the table goes through CheckRow, and no row is added or lost |
| Lifecycle.PendingPassChangesOnlyResults | index.js:746-763 | a row changes exactly when it is pending and one of its later candles triggers, and then only its result changes |
| Lifecycle.PendingPassIdempotent | index.js:746-763 | a second pass at the same moment over the same candles changes nothing |
| Lifecycle.TrailingStop | index.js:1036-1050 | no move when trailing is off or the row has no type. A COMPRA stop moves exactly when the price is above the entry and the price less `trailingStopDistance` percent is above the stop, and it moves to that value. A VENDA stop is the mirror |
| Lifecycle.TrailingStopBehindPrice | index.js:1038-1050 | with a positive price and a distance strictly between 0% and 100%, a new COMPRA stop lies strictly between 0 and the price, and a new VENDA stop lies strictly above the price |
| Lifecycle.UpdateTrailingStop | index.js:1040-1050 | a trailing update changes only the stop column; it stores the stop TrailingStop gives, and changes nothing when TrailingStop gives none |
| Lifecycle.TrailingNeverLoosens | index.js:1022-1052 | over any sequence of prices, a COMPRA stop never falls, a VENDA stop never rises, nothing else in the row changes, and nothing moves when trailing is off |
| Lifecycle.RegisteredSignalsNeverTrail | index.js:1040-1050 | as written, no stored signal is ever trailed |
| Lifecycle.IntendedSignalsBookSignedResults | index.js:704-719 | corrected pipeline: a signal with mirrored VENDA levels, stored with its own keys, never books a gain on STOP_LOSS or a loss on TAKE_PROFIT |
| Risk.DailyLossSum | index.js:1134-1139 | `SUM(profit_loss)` over today's losing rows is NULL exactly when there are none; otherwise it is negative and at or below each of the day's losses |
| Risk.DailyLossSumAppend | index.js:1134-1139 | the day's loss over a table split in two is the SQL sum of the two parts' day losses: each losing row is counted once |
| Risk.DailyLossOfOneRow | index.js:1134-1139 | a single row's day loss is its own loss of the day, or NULL |
| Risk.DailyLossSumSnoc | index.js:1134-1139 | one more row in the table adds its loss of the day to the SQL sum, and leaves the sum as it was when the row is not a loss of that day |
| Risk.LossOn | index.js:1134-1139 | a row contributes only a negative stored profit/loss of the given day; a row without a result or of another day contributes nothing |
| Risk.DailyLoss | index.js:1149 | the day's loss is the magnitude of the sum, and 0 when the sum is NULL |
| Risk.CheckRiskConditions | index.js:1132-1171 | a failed query rejects, and so does a daily loss at or past the limit. With finite levels and the stop off the entry, the gate approves exactly when the daily loss is under the limit and the reward is at least `minRiskReward` times the risk |
| Risk.RatioAgainstMinimum | index.js:1156-1162 | with finite levels and the stop off the entry, `ratio < min` is exactly `reward < min · risk` |
| Risk.RiskRewardRatio | index.js:1157-1160 | with finite levels and the stop off the entry, a non-negative finite ratio that times the risk gives the reward; stop and target on the entry give NaN; stop on the entry with the target off it gives +Infinity; a NaN level gives NaN |
| Risk.DailyLimitStopsTrading | index.js:1149-1153 | losses of -1% and -2% on the same day sum to -3% and stop every signal under the limit of 3% |
| Risk.EngineSignalsRejectedAtDefault | index.js:1156-1165 | with a positive ATR every signal the engine builds has a ratio of 4/3, below the minimum of 1.5, so the gate rejects it |
| Risk.ZeroRangeSignalApproved | index.js:1156-1168 | a signal with its stop and target on the entry has ratio NaN and is approved |
| Risk.ZeroAtrSignalApproved | index.js:1156-1168 | an engine signal with an ATR of exactly 0 needs a flat newest candle, has ratio NaN, and is approved |
| Risk.CheckRiskConditionsIntended | index.js:1132-1171 | corrected: approval needs a ratio that is a number at least `minRiskReward`; it agrees with the source whenever the ratio is not NaN |
| Risk.IntendedGateDemandsReward | index.js:1156-1165 | corrected: with a positive minimum and finite levels, an approved signal has its target off its entry |
| Risk.OrderQuantity | index.js:1125-1127 | quantity × entry equals `accountBalance × riskPercentage / 100`; a zero entry gives no finite quantity |
| Risk.ToFixed6 | index.js:1127 | `toFixed(6)` is the nearest count of millionths, with ties away from zero; NaN and the infinities stay non-numeric |
| Risk.DefaultQuantity | index.js:1125-1129 | under config.js the quantity is 10 / entry, rounded to the nearest millionth |

## Left out

- Everything outside the decision logic is left out: the Binance WebSocket feed and `storeCandle.js`, SQLite I/O, order placement (`sendOrder`), the accuracy reports, timers and logging. The SQL queries become pure functions over sequences of rows.
- The technicalindicators library (RSI, EMA, ADX, ATR, Stochastic, MFI, VWAP, ROC, SMA) and the `calculatePPO` / `calculateAO` helpers built on it are left out. Their results are opaque inputs, because the library is not part of this model.
- ADX: `ta.adx({...})[0]` (index.js:294) is an object, so `adx > 25` at index.js:358 is always false in the running code. The model takes ADX as an opaque number and keeps the rule general.
- Floating point is modelled only partly. Prices are exact reals, with no rounding, no signed zero, no `parseFloat` of text and no `toFixed` above 1e21. JavaScript's NaN and infinities are modelled.
- Lifecycle.Stored: SQLite stores ±Infinity as REAL infinities, but the model stores them as NULL, like NaN.
- The candle queries at index.js:670-677 and index.js:1025-1032 filter on a `timestamp` column. The `candles` table does not have one, so in the running code both queries fail and return early. The model gives every candle a timestamp so that the resolution and trailing logic have something to mean.
- `checkRiskConditions` returns a Promise, which is always truthy at index.js:935, so the gate never blocks the order that follows. The model gives the gate's boolean itself, the value the Promise resolves with.
- The order that follows the gate, and `updateActiveSignals`, are left out. `updateSignalStopLoss` is not part of this model: the shown files do not define it. Lifecycle.UpdateTrailingStop takes it to store the new stop in the row.
- Dates are simplified: `date(timestamp) = date('now')` becomes equal whole-day numbers of seconds on one clock, with no timezone and no text format for timestamps.
- The gate uses `config.maxDailyLoss` = 3 (config.js). The `riskConfig.maxDailyLoss` of 6 at index.js:1015 is never read, and neither is `maxLossPerTrade`.
- Indicators.Obv requires at least one candle. With none, the source returns `[undefined]`, and `analyzeTrend` never calls it that way because it needs five rows first.
- Lifecycle.SortByTime puts candles with equal timestamps in one fixed order, later table row first. `ORDER BY timestamp ASC` leaves that order unspecified, and with ties the `LIMIT 20` cut and the first trigger can depend on it.
- Exceptions: the only throw modelled is `atr.toFixed(4)` on an undefined ATR, and the model keeps only its first effect, no signal (Analysis.SignalFor). The throw happens inside the `db.all` callback opened at index.js:252; none of the `try` blocks (index.js:189, 843, 1056) covers that callback and no `uncaughtException` handler is installed, so under Node's default behaviour the whole process ends there. That reading comes from the code text; the model has no process. The model reads every non-finite ATR as undefined, because the library gives either a number or nothing.
- Analysis.AnalyzeTrend states only the row-count gate and the entry. The levels and score are stated on Analysis.SignalFor, for the snapshot AnalyzeTrend builds.
- The `indicators` JSON column that registerSignal writes is left out, since nothing reads it back in the decision logic.

## Findings

| source | as written | input that shows it | evidently intended | confidence | as-written member | corrected member |
|---|---|---|---|---|---|---|
| index.js:367-368 | a VENDA signal stores `close - 1.5·ATR` as its stop and `close + 2·ATR` as its target, the COMPRA levels | close 100, ATR 1: VENDA stop 98.5, target 102; the next unchanged close of 100 is "STOP_LOSS" with +1.5% | stop `close + 1.5·ATR` and target `close - 2·ATR`, as the log at index.js:554-555 prints | high (not executed) | Lifecycle.VendaStopLossReportsProfit | Lifecycle.IntendedSignalsBookSignedResults |
| index.js:1157-1162 | `Math.abs(x / y) < 1.5` is false for NaN, so a NaN ratio passes the gate | an ATR of exactly 0 on a flat newest candle: stop = target = entry, so the ratio is 0/0 | approve only a ratio that is a number at least `minRiskReward` | high (not executed) | Risk.ZeroAtrSignalApproved | Risk.CheckRiskConditionsIntended |
| index.js:191-201 | Williams %R reads the window ending at the highest index, which is the oldest candle of the newest-first rows from index.js:250 | 50 rows: the newest 36 candles never affect %R | %R over the newest 14 candles, ending at the latest close | medium (not executed) | Indicators.WilliamsRIgnoresNewest | Indicators.WilliamsRLatestIsChronological |
| index.js:636-643 | registerSignal binds `signal.type`, `signal.entryPrice`, `signal.stopLoss` and `signal.takeProfit`; the object built at index.js:913-921 has `signal_type`, `entry_price`, `stop_loss` and `take_profit`, so all four columns are NULL | any signal: its stored row has no type and is never resolved or trailed | bind the snake_case keys the signal object has | high (not executed) | Lifecycle.RegisteredSignalsNeverResolve | Lifecycle.IntendedRowResolvesOnCross |
