/**
  What happens to a signal after analyzeTrend emits it: the row registerSignal
  stores (index.js:594-645), the resolution pass that later marks it STOP_LOSS
  or TAKE_PROFIT (index.js:647-763), and the trailing stop (index.js:1013-1052).

  Timestamps are seconds on one clock. The `signals` table is a sequence of rows
  and the `candles` table a sequence of stored candles; the SQL queries become
  the functions below.
 */
module Lifecycle {
  import opened Wrappers
  import opened JsNumber
  import opened Scoring
  import opened Analysis

  // ---------------------------------------------------------------------------
  // Stored rows
  // ---------------------------------------------------------------------------

  /** A REAL column: a number or NULL. */
  type Column = Option<real>

  /** How JavaScript reads a column in `<=`, `>=` and `-`: NULL counts as 0. */
  function AsNumber(c: Column): real {
    c.GetOr(0.0)
  }

  /** The column SQLite stores for a JavaScript number: NaN becomes NULL. */
  function Stored(n: Num): (c: Column)
    ensures c.Some? <==> n.Finite?
    ensures c.Some? ==> c.value == n.v
  {
    if n.Finite? then Some(n.v) else None
  }

  datatype Outcome = StopLoss | TakeProfit

  /** The columns the resolution pass fills in (index.js:723-733). */
  datatype Resolution = Resolution(outcome: Outcome, exitPrice: Column, exitTimestamp: int, profitLoss: Column)

  /** A row of the `signals` table (index.js:51-65); `result` is NULL until resolved. */
  datatype SignalRow = SignalRow(
    id: nat,
    timestamp: int,
    symbol: string,
    signalType: Option<Direction>,
    entryPrice: Column,
    stopLoss: Column,
    takeProfit: Column,
    score: real,
    result: Option<Resolution>)

  /** A row of the `candles` table, with the timestamp the queries filter on. */
  datatype StoredCandle = StoredCandle(symbol: string, close: real, timestamp: int)

  /** A row of a candle query: `SELECT close, timestamp`. */
  datatype Candle = Candle(close: real, timestamp: int)

  // ---------------------------------------------------------------------------
  // registerSignal
  // ---------------------------------------------------------------------------

  /** registerSignal as written: it binds `signal.type`, `signal.entryPrice`,
      `signal.stopLoss` and `signal.takeProfit`, keys the signal object built at
      index.js:914-929 does not have, so those four columns are stored NULL. */
  function Register(d: SignalDraft, id: nat, symbol: string, now: int): (row: SignalRow)
    ensures row.signalType.None? && row.entryPrice.None? && row.stopLoss.None? && row.takeProfit.None?
    ensures row.result.None? && row.score == d.score && row.symbol == symbol && row.timestamp == now
  {
    SignalRow(id, now, symbol, None, None, None, None, d.score, None)
  }

  /** registerSignal reading the keys the signal object does have. */
  function RegisterIntended(d: SignalDraft, id: nat, symbol: string, now: int): (row: SignalRow)
    ensures row.signalType == Some(d.direction) && row.entryPrice == Some(d.entry)
    ensures row.stopLoss == Stored(d.stopLoss) && row.takeProfit == Stored(d.takeProfit)
    ensures row.result.None? && row.score == d.score && row.symbol == symbol && row.timestamp == now
  {
    SignalRow(id, now, symbol, Some(d.direction), Some(d.entry), Stored(d.stopLoss), Stored(d.takeProfit), d.score, None)
  }

  // ---------------------------------------------------------------------------
  // analyzeSignalResult
  // ---------------------------------------------------------------------------

  /** Which threshold one candle's close crosses, the stop test first (index.js:689-719).
      A row whose type is neither COMPRA nor VENDA is never triggered. */
  function Trigger(row: SignalRow, close: real): (t: Option<Outcome>)
    ensures row.signalType.None? ==> t.None?
    ensures row.signalType == Some(Compra) ==>
      && (t == Some(StopLoss) <==> close <= AsNumber(row.stopLoss))
      && (t == Some(TakeProfit) <==> AsNumber(row.stopLoss) < close && close >= AsNumber(row.takeProfit))
    ensures row.signalType == Some(Venda) ==>
      && (t == Some(StopLoss) <==> close >= AsNumber(row.stopLoss))
      && (t == Some(TakeProfit) <==> close < AsNumber(row.stopLoss) && close <= AsNumber(row.takeProfit))
  {
    var stop := AsNumber(row.stopLoss);
    var target := AsNumber(row.takeProfit);
    match row.signalType
    case None => None
    case Some(Compra) =>
      if close <= stop then Some(StopLoss) else if close >= target then Some(TakeProfit) else None
    case Some(Venda) =>
      if close >= stop then Some(StopLoss) else if close <= target then Some(TakeProfit) else None
  }

  /** Index of the first candle that triggers, scanning in order (the `break`s of index.js:689-719). */
  function FirstTrigger(row: SignalRow, candles: seq<Candle>): (k: Option<nat>)
    ensures k.None? <==> forall j :: 0 <= j < |candles| ==> Trigger(row, candles[j].close).None?
    ensures k.Some? ==>
      && k.value < |candles|
      && Trigger(row, candles[k.value].close).Some?
      && forall j :: 0 <= j < k.value ==> Trigger(row, candles[j].close).None?
  {
    if |candles| == 0 then None
    else if Trigger(row, candles[0].close).Some? then Some(0)
    else
      match FirstTrigger(row, candles[1..])
      case None => None
      case Some(k) => Some(k + 1)
  }

  /** `((exit - entry) / entry) * 100` for COMPRA, `((entry - exit) / entry) * 100` for VENDA. */
  function ProfitLoss(direction: Direction, entry: Column, exit: Column): (pl: Num)
    ensures AsNumber(entry) > 0.0 ==> pl.Finite?
    ensures AsNumber(entry) > 0.0 && direction == Compra ==>
      (pl.v > 0.0 <==> AsNumber(exit) > AsNumber(entry)) && (pl.v < 0.0 <==> AsNumber(exit) < AsNumber(entry))
    ensures AsNumber(entry) > 0.0 && direction == Venda ==>
      (pl.v > 0.0 <==> AsNumber(exit) < AsNumber(entry)) && (pl.v < 0.0 <==> AsNumber(exit) > AsNumber(entry))
    ensures AsNumber(entry) == 0.0 ==> !pl.Finite?
  {
    var e := AsNumber(entry);
    var x := AsNumber(exit);
    var gain := if direction == Compra then x - e else e - x;
    QuotientSign(gain, e);
    Mul(Div(Finite(gain), Finite(e)), Finite(100.0))
  }

  /** Dividing by a positive number keeps the sign. */
  lemma QuotientSign(a: real, b: real)
    ensures b > 0.0 ==> (a / b > 0.0 <==> a > 0.0) && (a / b < 0.0 <==> a < 0.0)
  {
    if b > 0.0 {
      assert a / b * b == a;
    }
  }

  /** The UPDATE analyzeSignalResult issues for one pending row, or none when no
      candle triggers (index.js:680-741). The exit is the crossed threshold itself,
      not the candle's close. */
  function Resolve(row: SignalRow, candles: seq<Candle>): (r: Option<Resolution>)
    ensures r.None? <==> forall j :: 0 <= j < |candles| ==> Trigger(row, candles[j].close).None?
    ensures r.Some? ==> row.signalType.Some? && exists k :: 0 <= k < |candles| && IsResolutionAt(row, candles, k, r.value)
  {
    match FirstTrigger(row, candles)
    case None => None
    case Some(k) =>
      var outcome := Trigger(row, candles[k].close).value;
      var exit := if outcome == StopLoss then row.stopLoss else row.takeProfit;
      var r := Resolution(outcome, exit, candles[k].timestamp, Stored(ProfitLoss(row.signalType.value, row.entryPrice, exit)));
      assert IsResolutionAt(row, candles, k, r);
      Some(r)
  }

  /** `res` is what the first triggering candle, candles[k], gives. */
  ghost predicate IsResolutionAt(row: SignalRow, candles: seq<Candle>, k: nat, res: Resolution)
    requires k < |candles|
  {
    && row.signalType.Some?
    && Trigger(row, candles[k].close) == Some(res.outcome)
    && (forall j :: 0 <= j < k ==> Trigger(row, candles[j].close).None?)
    && res.exitTimestamp == candles[k].timestamp
    && res.exitPrice == (if res.outcome == StopLoss then row.stopLoss else row.takeProfit)
    && res.profitLoss == Stored(ProfitLoss(row.signalType.value, row.entryPrice, res.exitPrice))
  }

  // ---------------------------------------------------------------------------
  // Properties of the resolution
  // ---------------------------------------------------------------------------

  /** A COMPRA row with entry 100, stop 95 and target 110. */
  function ExampleBuy(): SignalRow {
    SignalRow(1, 0, "ethusdt", Some(Compra), Some(100.0), Some(95.0), Some(110.0), 6.0, None)
  }

  /** Closes 101 then 94: stopped out at the stop price, 95, for a 5% loss. */
  lemma ExampleStopLoss()
    ensures Resolve(ExampleBuy(), [Candle(101.0, 60), Candle(94.0, 120)])
         == Some(Resolution(StopLoss, Some(95.0), 120, Some(-5.0)))
  {
    var cs := [Candle(101.0, 60), Candle(94.0, 120)];
    assert Trigger(ExampleBuy(), cs[0].close).None?;
    assert FirstTrigger(ExampleBuy(), cs) == Some(1);
  }

  /** Closes 101 then 111: exits at the target price, 110, for a 10% gain. */
  lemma ExampleTakeProfit()
    ensures Resolve(ExampleBuy(), [Candle(101.0, 60), Candle(111.0, 120)])
         == Some(Resolution(TakeProfit, Some(110.0), 120, Some(10.0)))
  {
    var cs := [Candle(101.0, 60), Candle(111.0, 120)];
    assert Trigger(ExampleBuy(), cs[0].close).None?;
    assert FirstTrigger(ExampleBuy(), cs) == Some(1);
  }

  /** Stops and targets on the protective side of the entry: below and above it
      for COMPRA, above and below it for VENDA. */
  predicate ProtectiveLevels(row: SignalRow) {
    && row.signalType.Some? && row.entryPrice.Some? && row.stopLoss.Some? && row.takeProfit.Some?
    && var e, stop, target := row.entryPrice.value, row.stopLoss.value, row.takeProfit.value;
       match row.signalType.value
       case Compra => stop <= e <= target
       case Venda => target <= e <= stop
  }

  lemma ReturnSign(gain: real, e: real)
    requires e > 0.0
    ensures gain <= 0.0 ==> gain / e * 100.0 <= 0.0
    ensures gain >= 0.0 ==> gain / e * 100.0 >= 0.0
  {
    if gain <= 0.0 {
      assert gain / e <= 0.0;
    } else {
      assert gain / e >= 0.0;
    }
  }

  /** With protective levels and a positive entry, a STOP_LOSS exit never
      records a gain and a TAKE_PROFIT exit never records a loss. */
  lemma OutcomeMatchesProfitSign(row: SignalRow, candles: seq<Candle>)
    requires ProtectiveLevels(row) && row.entryPrice.value > 0.0
    requires Resolve(row, candles).Some?
    ensures var res := Resolve(row, candles).value;
      && res.profitLoss.Some?
      && (res.outcome == StopLoss ==> res.profitLoss.value <= 0.0)
      && (res.outcome == TakeProfit ==> res.profitLoss.value >= 0.0)
  {
    var res := Resolve(row, candles).value;
    var k :| 0 <= k < |candles| && IsResolutionAt(row, candles, k, res);
    var e := row.entryPrice.value;
    var x := AsNumber(res.exitPrice);
    var gain := if row.signalType.value == Compra then x - e else e - x;
    ReturnSign(gain, e);
    assert ProfitLoss(row.signalType.value, row.entryPrice, res.exitPrice) == Finite(gain / e * 100.0);
  }

  /** A VENDA row stored with the stop below the target -- as analyzeTrend builds
      it -- is resolved by the very first later candle: every close is either at
      or above the stop or at or below the target. */
  lemma VendaBuySideLevelsResolveAtOnce(row: SignalRow, candles: seq<Candle>)
    requires row.signalType == Some(Venda) && AsNumber(row.stopLoss) <= AsNumber(row.takeProfit)
    requires |candles| > 0
    ensures Resolve(row, candles).Some? && Resolve(row, candles).value.exitTimestamp == candles[0].timestamp
  {
    assert Trigger(row, candles[0].close).Some?;
    assert FirstTrigger(row, candles) == Some(0);
  }

  /** The VENDA signal of a snapshot with close 100 and ATR 1, stored with its
      keys read correctly: stop 98.5, target 102. */
  function ExampleSell(): SignalRow {
    SignalRow(2, 0, "ethusdt", Some(Venda), Some(100.0), Some(98.5), Some(102.0), 6.0, None)
  }

  /** The next close, unchanged at 100, "stops out" the VENDA signal with a 1.5% profit. */
  lemma VendaStopLossReportsProfit()
    ensures Resolve(ExampleSell(), [Candle(100.0, 60)])
         == Some(Resolution(StopLoss, Some(98.5), 60, Some(1.5)))
  {
    assert FirstTrigger(ExampleSell(), [Candle(100.0, 60)]) == Some(0);
  }

  /** As registerSignal writes them, stored signals have no type, so no candle
      ever resolves one. */
  lemma RegisteredSignalsNeverResolve(d: SignalDraft, id: nat, symbol: string, now: int, candles: seq<Candle>)
    ensures Resolve(Register(d, id, symbol, now), candles).None?
  {
  }

  /** Stored with its own keys, a signal with finite levels is resolved exactly
      when some later close reaches its stop or its target. */
  lemma IntendedRowResolvesOnCross(d: SignalDraft, id: nat, symbol: string, now: int, candles: seq<Candle>)
    requires d.stopLoss.Finite? && d.takeProfit.Finite?
    ensures Resolve(RegisterIntended(d, id, symbol, now), candles).Some? <==>
      exists j :: 0 <= j < |candles| && Crosses(d, candles[j].close)
  {
    var row := RegisterIntended(d, id, symbol, now);
    forall j | 0 <= j < |candles|
      ensures Trigger(row, candles[j].close).Some? <==> Crosses(d, candles[j].close)
    {
    }
  }

  /** `close` reaches the draft's stop or its target, on the side its direction watches. */
  predicate Crosses(d: SignalDraft, close: real)
    requires d.stopLoss.Finite? && d.takeProfit.Finite?
  {
    match d.direction
    case Compra => close <= d.stopLoss.v || close >= d.takeProfit.v
    case Venda => close >= d.stopLoss.v || close <= d.takeProfit.v
  }

  // ---------------------------------------------------------------------------
  // The candle queries
  // ---------------------------------------------------------------------------

  predicate Chronological(cs: seq<Candle>) {
    forall i, j :: 0 <= i < j < |cs| ==> cs[i].timestamp <= cs[j].timestamp
  }

  /** The candles of `symbol` strictly after `after`, in table order (the WHERE clauses of index.js:673-674, 1028-1029). */
  function Matching(store: seq<StoredCandle>, symbol: string, after: int): (r: seq<Candle>)
    ensures |r| <= |store|
    ensures forall c :: c in r <==>
      exists sc :: sc in store && sc.symbol == symbol && sc.timestamp > after && c == Candle(sc.close, sc.timestamp)
  {
    if |store| == 0 then []
    else
      var rest := Matching(store[..|store| - 1], symbol, after);
      var sc := store[|store| - 1];
      assert store == store[..|store| - 1] + [sc];
      if sc.symbol == symbol && sc.timestamp > after then rest + [Candle(sc.close, sc.timestamp)] else rest
  }

  /** What one table row contributes to the query: its candle if it matches, else nothing. */
  function MatchingRow(sc: StoredCandle, symbol: string, after: int): seq<Candle> {
    if sc.symbol == symbol && sc.timestamp > after then [Candle(sc.close, sc.timestamp)] else []
  }

  /** One row more at the end of the table adds its own contribution at the end. */
  lemma MatchingSnoc(store: seq<StoredCandle>, sc: StoredCandle, symbol: string, after: int)
    ensures Matching(store + [sc], symbol, after) == Matching(store, symbol, after) + MatchingRow(sc, symbol, after)
  {
    assert (store + [sc])[..|store|] == store;
  }

  /** A one-row table gives that row's candle, once, if it matches. */
  lemma MatchingOfOneRow(sc: StoredCandle, symbol: string, after: int)
    ensures Matching([sc], symbol, after) == MatchingRow(sc, symbol, after)
  {
    MatchingSnoc([], sc, symbol, after);
    assert [] + [sc] == [sc];
  }

  /** The query result of a table split in two is the result of the first part
      followed by that of the second: one candle per matching table row, in
      table order, repeated rows included. */
  lemma {:induction false} MatchingAppend(store: seq<StoredCandle>, more: seq<StoredCandle>, symbol: string, after: int)
    ensures Matching(store + more, symbol, after) == Matching(store, symbol, after) + Matching(more, symbol, after)
    decreases |more|
  {
    if |more| == 0 {
      assert store + more == store;
    } else {
      var front, last := more[..|more| - 1], more[|more| - 1];
      assert more == front + [last];
      assert store + more == (store + front) + [last];
      MatchingAppend(store, front, symbol, after);
      MatchingSnoc(store + front, last, symbol, after);
      MatchingSnoc(front, last, symbol, after);
    }
  }

  /** `c` placed before the first candle of `cs` that is not earlier than it. */
  function InsertByTime(c: Candle, cs: seq<Candle>): (r: seq<Candle>)
    requires Chronological(cs)
    ensures Chronological(r)
    ensures multiset(r) == multiset(cs) + multiset{c}
    ensures |r| == |cs| + 1 && forall x :: x in r <==> x in cs || x == c
    ensures r[0] == c || (|cs| > 0 && r[0] == cs[0])
  {
    if |cs| == 0 || c.timestamp <= cs[0].timestamp then [c] + cs
    else
      var rest := InsertByTime(c, cs[1..]);
      assert cs == [cs[0]] + cs[1..];
      [cs[0]] + rest
  }

  /** `ORDER BY timestamp ASC`: the same candles in time order. */
  function SortByTime(cs: seq<Candle>): (r: seq<Candle>)
    ensures Chronological(r)
    ensures multiset(r) == multiset(cs)
    ensures |r| == |cs| && forall c :: c in r <==> c in cs
  {
    if |cs| == 0 then []
    else
      assert cs == cs[..|cs| - 1] + [cs[|cs| - 1]];
      InsertByTime(cs[|cs| - 1], SortByTime(cs[..|cs| - 1]))
  }

  /** Candles analyzeSignalResult looks at: at most twenty (`LIMIT 20`). */
  const LookaheadCandles: nat := 20

  /** The query of index.js:670-677: the earliest twenty candles of `symbol` after `after`, oldest first. */
  function LaterCandles(store: seq<StoredCandle>, symbol: string, after: int): (r: seq<Candle>)
    ensures Chronological(r)
    ensures |r| == if |Matching(store, symbol, after)| < LookaheadCandles then |Matching(store, symbol, after)| else LookaheadCandles
    ensures forall c :: c in r ==> c in Matching(store, symbol, after)
    ensures forall c, x :: c in Matching(store, symbol, after) && c !in r && x in r ==> x.timestamp <= c.timestamp
    ensures multiset(r) <= multiset(Matching(store, symbol, after))
    ensures forall c, x :: multiset(r)[c] < multiset(Matching(store, symbol, after))[c] && x in r ==>
      x.timestamp <= c.timestamp
  {
    EarliestOf(SortByTime(Matching(store, symbol, after)), LookaheadCandles)
  }

  /** The first `n` candles of a time-ordered list (`LIMIT n`): its earliest ones. */
  function EarliestOf(all: seq<Candle>, n: nat): (r: seq<Candle>)
    requires Chronological(all)
    ensures Chronological(r)
    ensures |r| == if |all| < n then |all| else n
    ensures forall c :: c in r ==> c in all
    ensures forall c, x :: c in all && c !in r && x in r ==> x.timestamp <= c.timestamp
    ensures multiset(r) <= multiset(all)
    ensures forall c, x :: multiset(r)[c] < multiset(all)[c] && x in r ==> x.timestamp <= c.timestamp
  {
    if |all| <= n then all
    else
      assert forall c :: c in all[..n] ==> c in all;
      PrefixIsEarliest(all, n);
      PrefixIsEarliestCopies(all, n);
      all[..n]
  }

  /** The same, counting repeated candles: a prefix of a time-ordered list keeps
      part of the multiset, and any copy it leaves out is at least as late as
      everything kept. */
  lemma PrefixIsEarliestCopies(cs: seq<Candle>, n: nat)
    requires Chronological(cs) && n <= |cs|
    ensures multiset(cs[..n]) <= multiset(cs)
    ensures forall c, x :: multiset(cs[..n])[c] < multiset(cs)[c] && x in cs[..n] ==> x.timestamp <= c.timestamp
  {
    assert cs == cs[..n] + cs[n..];
    assert multiset(cs) == multiset(cs[..n]) + multiset(cs[n..]);
    forall c, x | multiset(cs[..n])[c] < multiset(cs)[c] && x in cs[..n]
      ensures x.timestamp <= c.timestamp
    {
      assert c in multiset(cs[n..]);
      var j :| 0 <= j < |cs[n..]| && cs[n..][j] == c;
      var i :| 0 <= i < n && cs[..n][i] == x;
      assert cs[i] == x && cs[n + j] == c;
    }
  }

  /** A prefix of a time-ordered list holds its earliest candles: everything
      left out is at least as late as everything kept. */
  lemma PrefixIsEarliest(cs: seq<Candle>, n: nat)
    requires Chronological(cs) && n <= |cs|
    ensures forall c, x :: c in cs && c !in cs[..n] && x in cs[..n] ==> x.timestamp <= c.timestamp
  {
    assert forall k | 0 <= k < n :: cs[k] == cs[..n][k];
    forall c, x | c in cs && c !in cs[..n] && x in cs[..n]
      ensures x.timestamp <= c.timestamp
    {
      var j :| 0 <= j < |cs| && cs[j] == c;
      var i :| 0 <= i < n && cs[..n][i] == x;
      assert n <= j;
    }
  }

  /** The query of index.js:1023-1032: the close of the latest candle of `symbol` after `after`, if any. */
  function LatestClose(store: seq<StoredCandle>, symbol: string, after: int): (r: Option<real>)
    ensures r.None? <==> |Matching(store, symbol, after)| == 0
    ensures r.Some? ==> exists c :: (c in Matching(store, symbol, after) && c.close == r.value &&
      forall d :: d in Matching(store, symbol, after) ==> d.timestamp <= c.timestamp)
  {
    var m := Matching(store, symbol, after);
    var all := SortByTime(m);
    if |all| == 0 then None
    else
      var last := all[|all| - 1];
      LastIsLatest(all);
      assert last in m;
      Some(last.close)
  }

  lemma LastIsLatest(cs: seq<Candle>)
    requires Chronological(cs) && |cs| > 0
    ensures forall d :: d in cs ==> d.timestamp <= cs[|cs| - 1].timestamp
  {
    forall d | d in cs
      ensures d.timestamp <= cs[|cs| - 1].timestamp
    {
      var i :| 0 <= i < |cs| && cs[i] == d;
    }
  }

  // ---------------------------------------------------------------------------
  // checkPendingSignals
  // ---------------------------------------------------------------------------

  /** How long a signal waits before it is checked: `datetime('now', '-15 minutes')`. */
  const GraceSeconds: int := 900

  /** The rows the pass selects (index.js:649-653, 747-751): no result yet, and at least fifteen minutes old. */
  predicate AwaitingResult(row: SignalRow, now: int)
    ensures AwaitingResult(row, now) <==> row.result.None? && now - row.timestamp >= 15 * 60
  {
    row.result.None? && row.timestamp <= now - GraceSeconds
  }

  /** One selected row after analyzeSignalResult: its result set when a candle triggers. */
  function CheckRow(row: SignalRow, now: int, store: seq<StoredCandle>): (out: SignalRow)
    ensures out.(result := row.result) == row
    ensures !AwaitingResult(row, now) ==> out == row
    ensures AwaitingResult(row, now) ==> out.result == Resolve(row, LaterCandles(store, row.symbol, row.timestamp))
  {
    if !AwaitingResult(row, now) then row
    else
      match Resolve(row, LaterCandles(store, row.symbol, row.timestamp))
      case None => row
      case Some(res) => row.(result := Some(res))
  }

  /** checkPendingSignals over the whole `signals` table at time `now`. */
  function CheckPendingSignals(rows: seq<SignalRow>, now: int, store: seq<StoredCandle>): (out: seq<SignalRow>)
    ensures |out| == |rows|
    ensures forall i :: 0 <= i < |rows| ==> out[i] == CheckRow(rows[i], now, store)
  {
    seq(|rows|, i requires 0 <= i < |rows| => CheckRow(rows[i], now, store))
  }

  /** Each row keeps every column but `result`; a resolved or too recent row is left
      as it is; a pending one gets a result exactly when one of its later candles triggers. */
  lemma PendingPassChangesOnlyResults(rows: seq<SignalRow>, now: int, store: seq<StoredCandle>, i: nat)
    requires i < |rows|
    ensures var out := CheckPendingSignals(rows, now, store)[i];
      && out.(result := rows[i].result) == rows[i]
      && (rows[i].result.Some? ==> out == rows[i])
      && (rows[i].timestamp > now - GraceSeconds ==> out == rows[i])
      && (out != rows[i] <==>
            AwaitingResult(rows[i], now) &&
            exists j :: 0 <= j < |LaterCandles(store, rows[i].symbol, rows[i].timestamp)| &&
              Trigger(rows[i], LaterCandles(store, rows[i].symbol, rows[i].timestamp)[j].close).Some?)
  {
  }

  /** Running the pass a second time, at the same moment over the same candles, changes nothing. */
  lemma PendingPassIdempotent(rows: seq<SignalRow>, now: int, store: seq<StoredCandle>)
    ensures CheckPendingSignals(CheckPendingSignals(rows, now, store), now, store) == CheckPendingSignals(rows, now, store)
  {
    var once := CheckPendingSignals(rows, now, store);
    forall i | 0 <= i < |rows|
      ensures CheckRow(once[i], now, store) == once[i]
    {
      if once[i] != rows[i] {
        assert once[i].result.Some?;
      }
    }
  }

  // ---------------------------------------------------------------------------
  // updateTrailingStop
  // ---------------------------------------------------------------------------

  /** The trailing part of riskConfig (index.js:1013-1019). */
  datatype TrailingConfig = TrailingConfig(trailingStop: bool, trailingStopDistance: real)

  const DefaultTrailing := TrailingConfig(true, 1.0)

  /** `currentPrice * (trailingStopDistance / 100)` */
  function TrailingDistance(price: real, percent: real): real {
    price * (percent / 100.0)
  }

  /** The stop updateTrailingStop would move the row to at `currentPrice`, or none
      (index.js:1036-1050): a COMPRA stop is raised to `trailingStopDistance` percent
      below a price above the entry, a VENDA stop lowered to that far above a price
      below the entry, and only when that tightens it. */
  function TrailingStop(cfg: TrailingConfig, row: SignalRow, currentPrice: real): (r: Option<real>)
    ensures !cfg.trailingStop || row.signalType.None? ==> r.None?
    ensures r.Some? && row.signalType == Some(Compra) ==>
      && currentPrice > AsNumber(row.entryPrice)
      && r.value == currentPrice - TrailingDistance(currentPrice, cfg.trailingStopDistance)
      && r.value > AsNumber(row.stopLoss)
    ensures r.Some? && row.signalType == Some(Venda) ==>
      && currentPrice < AsNumber(row.entryPrice)
      && r.value == currentPrice + TrailingDistance(currentPrice, cfg.trailingStopDistance)
      && r.value < AsNumber(row.stopLoss)
    ensures cfg.trailingStop && row.signalType == Some(Compra)
      && currentPrice > AsNumber(row.entryPrice)
      && currentPrice - TrailingDistance(currentPrice, cfg.trailingStopDistance) > AsNumber(row.stopLoss)
      ==> r == Some(currentPrice - TrailingDistance(currentPrice, cfg.trailingStopDistance))
    ensures cfg.trailingStop && row.signalType == Some(Venda)
      && currentPrice < AsNumber(row.entryPrice)
      && currentPrice + TrailingDistance(currentPrice, cfg.trailingStopDistance) < AsNumber(row.stopLoss)
      ==> r == Some(currentPrice + TrailingDistance(currentPrice, cfg.trailingStopDistance))
  {
    if !cfg.trailingStop then None
    else
      var distance := TrailingDistance(currentPrice, cfg.trailingStopDistance);
      var entry := AsNumber(row.entryPrice);
      var stop := AsNumber(row.stopLoss);
      match row.signalType
      case None => None
      case Some(Compra) =>
        if currentPrice > entry && currentPrice - distance > stop then Some(currentPrice - distance) else None
      case Some(Venda) =>
        if currentPrice < entry && currentPrice + distance < stop then Some(currentPrice + distance) else None
  }

  /** With a positive price and a distance between 0 and 100 percent, a new stop
      stays strictly on the losing side of the price it trails. */
  lemma TrailingStopBehindPrice(cfg: TrailingConfig, row: SignalRow, currentPrice: real, stop: real)
    requires currentPrice > 0.0 && 0.0 < cfg.trailingStopDistance < 100.0
    requires TrailingStop(cfg, row, currentPrice) == Some(stop)
    ensures row.signalType == Some(Compra) ==> 0.0 < stop < currentPrice
    ensures row.signalType == Some(Venda) ==> currentPrice < stop < 2.0 * currentPrice
  {
    FractionOfPrice(currentPrice, cfg.trailingStopDistance);
  }

  lemma FractionOfPrice(p: real, percent: real)
    requires p > 0.0 && 0.0 < percent < 100.0
    ensures 0.0 < TrailingDistance(p, percent) < p
  {
    DistanceBelowPrice(p, percent);
    DistancePositive(p, percent);
  }

  lemma DistanceBelowPrice(p: real, percent: real)
    requires p > 0.0 && 0.0 < percent < 100.0
    ensures TrailingDistance(p, percent) < p
  {
    assert p * (percent / 100.0) < p * 1.0;
  }

  lemma DistancePositive(p: real, percent: real)
    requires p > 0.0 && 0.0 < percent < 100.0
    ensures 0.0 < TrailingDistance(p, percent)
  {
    assert p * (percent / 100.0) > 0.0;
  }

  /** updateTrailingStop followed by updateSignalStopLoss, which the shown files
      do not define; it is taken to store the new stop in the row. */
  function UpdateTrailingStop(cfg: TrailingConfig, row: SignalRow, currentPrice: real): (out: SignalRow)
    ensures out.(stopLoss := row.stopLoss) == row
    ensures TrailingStop(cfg, row, currentPrice).None? ==> out == row
    ensures TrailingStop(cfg, row, currentPrice).Some? ==> out.stopLoss == Some(TrailingStop(cfg, row, currentPrice).value)
  {
    match TrailingStop(cfg, row, currentPrice)
    case None => row
    case Some(stop) => row.(stopLoss := Some(stop))
  }

  /** The row after one trailing update per price, in order. */
  function TrailAlong(cfg: TrailingConfig, row: SignalRow, prices: seq<real>): SignalRow {
    if |prices| == 0 then row
    else UpdateTrailingStop(cfg, TrailAlong(cfg, row, prices[..|prices| - 1]), prices[|prices| - 1])
  }

  /** However the price moves, trailing never loosens the stop: it only rises for
      COMPRA and only falls for VENDA, and nothing else in the row changes. */
  lemma {:induction false} TrailingNeverLoosens(cfg: TrailingConfig, row: SignalRow, prices: seq<real>)
    ensures TrailAlong(cfg, row, prices).(stopLoss := row.stopLoss) == row
    ensures row.signalType == Some(Compra) ==> AsNumber(TrailAlong(cfg, row, prices).stopLoss) >= AsNumber(row.stopLoss)
    ensures row.signalType == Some(Venda) ==> AsNumber(TrailAlong(cfg, row, prices).stopLoss) <= AsNumber(row.stopLoss)
    ensures !cfg.trailingStop ==> TrailAlong(cfg, row, prices) == row
  {
    if |prices| > 0 {
      TrailingNeverLoosens(cfg, row, prices[..|prices| - 1]);
    }
  }

  /** As registerSignal writes them, stored signals are never trailed either. */
  lemma RegisteredSignalsNeverTrail(d: SignalDraft, id: nat, symbol: string, now: int, cfg: TrailingConfig, price: real)
    ensures TrailingStop(cfg, Register(d, id, symbol, now), price).None?
  {
  }

  /** The corrected pipeline: a signal built with IntendedLevels and stored with
      its own keys, on a positive close and a non-negative ATR, has protective
      levels, so a STOP_LOSS never books a gain and a TAKE_PROFIT never a loss. */
  lemma IntendedSignalsBookSignedResults(s: Snapshot, id: nat, symbol: string, now: int, candles: seq<Candle>)
    requires SignalForIntended(s).Some? && s.lastClose > 0.0 && s.atr.Finite? && s.atr.v >= 0.0
    requires Resolve(RegisterIntended(SignalForIntended(s).value, id, symbol, now), candles).Some?
    ensures var res := Resolve(RegisterIntended(SignalForIntended(s).value, id, symbol, now), candles).value;
      && res.profitLoss.Some?
      && (res.outcome == StopLoss ==> res.profitLoss.value <= 0.0)
      && (res.outcome == TakeProfit ==> res.profitLoss.value >= 0.0)
  {
    var row := RegisterIntended(SignalForIntended(s).value, id, symbol, now);
    assert ProtectiveLevels(row);
    OutcomeMatchesProfitSign(row, candles);
  }
}
