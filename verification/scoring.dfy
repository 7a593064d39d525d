/**
  The scoring engine of analyzeTrend (index.js:332-560): fifteen independent
  threshold rules, each adding a fixed weight to the buy score (scoreCompra) or
  to the sell score (scoreVenda), then the final COMPRA / VENDA / NEUTRO decision.

  The rules are kept as a list of contributions in source order. The
  Williams %R rule appears in that list twice, because analyzeTrend applies it
  at index.js:466-474 and again, under identical conditions, at index.js:500-506.
 */
module Scoring {
  import opened Wrappers
  import opened JsNumber
  import opened Indicators

  datatype Side = Buy | Sell

  datatype Direction = Compra | Venda

  /** sinalFinal */
  datatype Verdict = Neutro | Signal(direction: Direction)

  datatype StochasticPoint = StochasticPoint(k: Num, d: Num)

  /** Everything one evaluation reads. The library indicators (technicalindicators)
      are opaque inputs; the hand-written ones come from Indicators. */
  datatype Snapshot = Snapshot(
    // newest candle of the window, and the volume of the one before it
    lastClose: real,
    lastOpen: real,
    lastHigh: real,
    lastLow: real,
    currentVolume: real,
    previousVolume: real,
    // library indicators
    rsi: Num,
    ema10: Num,
    ema20: Num,
    adx: Num,
    atr: Num,
    volumeMA: Num,
    stochastic: Option<StochasticPoint>,  // None when the Stochastic array is empty
    mfi: Num,
    ppo: Num,
    ppoSignal: Num,
    vwap: Num,
    momentum: Num,
    obvMA: Num,
    aoCurrent: Num,
    aoPrevious: Num,
    // hand-written indicators
    williamsR: Option<Num>,
    obvLast: real,
    elderRay: ElderRayPower,
    ichimoku: IchimokuLines)

  datatype Contribution = Contribution(side: Side, points: real)

  function Vote(side: Side, points: real): Option<Contribution> {
    Some(Contribution(side, points))
  }

  // ---------------------------------------------------------------------------
  // The rules, in the order analyzeTrend applies them

  /** RSI above 70: 2 to sell; below 30: 2 to buy. */
  function RsiRule(s: Snapshot): (c: Option<Contribution>)
    ensures c.None? || 0.0 < c.value.points <= 2.0
    ensures c == Vote(Sell, 2.0) <==> Greater(s.rsi, Finite(70.0))
    ensures c == Vote(Buy, 2.0) <==> Less(s.rsi, Finite(30.0))
    ensures c.None? <==> !Greater(s.rsi, Finite(70.0)) && !Less(s.rsi, Finite(30.0))
  {
    if Greater(s.rsi, Finite(70.0)) then Vote(Sell, 2.0)
    else if Less(s.rsi, Finite(30.0)) then Vote(Buy, 2.0)
    else None
  }

  /** Short EMA above the long one with the close above the short one: buy;
      the mirror: sell; 2 points on above-average volume, else 1. */
  function EmaRule(s: Snapshot): (c: Option<Contribution>)
    ensures c.None? || 0.0 < c.value.points <= 2.0
    ensures c.Some? && c.value.side == Buy <==> Greater(s.ema10, s.ema20) && Greater(Finite(s.lastClose), s.ema10)
    ensures c.Some? && c.value.side == Sell <==> Less(s.ema10, s.ema20) && Less(Finite(s.lastClose), s.ema10)
    ensures c.Some? ==> (c.value.points == 2.0 <==> Greater(Finite(s.currentVolume), s.volumeMA))
    ensures c.Some? ==> (c.value.points == 1.0 <==> !Greater(Finite(s.currentVolume), s.volumeMA))
  {
    var weight := if Greater(Finite(s.currentVolume), s.volumeMA) then 2.0 else 1.0;
    if Greater(s.ema10, s.ema20) && Greater(Finite(s.lastClose), s.ema10) then Vote(Buy, weight)
    else if Less(s.ema10, s.ema20) && Less(Finite(s.lastClose), s.ema10) then Vote(Sell, weight)
    else None
  }

  /** ADX above 25: 1 point to the side the EMA ordering points to. */
  function AdxRule(s: Snapshot): (c: Option<Contribution>)
    ensures c.None? || 0.0 < c.value.points <= 1.0
    ensures c.Some? <==> Greater(s.adx, Finite(25.0))
    ensures c.Some? ==> c.value.points == 1.0 && (c.value.side == Buy <==> Greater(s.ema10, s.ema20))
  {
    if !Greater(s.adx, Finite(25.0)) then None
    else if Greater(s.ema10, s.ema20) then Vote(Buy, 1.0)
    else Vote(Sell, 1.0)
  }

  /** %K below 20 and above %D: 1.5 to buy; %K above 80 and below %D: 1.5 to sell. */
  function StochasticRule(s: Snapshot): (c: Option<Contribution>)
    ensures c.None? || 0.0 < c.value.points <= 1.5
    ensures c == Vote(Buy, 1.5) <==>
      s.stochastic.Some? && Less(s.stochastic.value.k, Finite(20.0)) && Greater(s.stochastic.value.k, s.stochastic.value.d)
    ensures c == Vote(Sell, 1.5) <==>
      s.stochastic.Some? && Greater(s.stochastic.value.k, Finite(80.0)) && Less(s.stochastic.value.k, s.stochastic.value.d)
    ensures c.None? || c == Vote(Buy, 1.5) || c == Vote(Sell, 1.5)
  {
    match s.stochastic
    case None => None
    case Some(p) =>
      if Less(p.k, Finite(20.0)) && Greater(p.k, p.d) then Vote(Buy, 1.5)
      else if Greater(p.k, Finite(80.0)) && Less(p.k, p.d) then Vote(Sell, 1.5)
      else None
  }

  /** MFI below 20: 1 to buy; above 80: 1 to sell. */
  function MfiRule(s: Snapshot): (c: Option<Contribution>)
    ensures c.None? || 0.0 < c.value.points <= 1.0
    ensures c == Vote(Buy, 1.0) <==> Less(s.mfi, Finite(20.0))
    ensures c == Vote(Sell, 1.0) <==> Greater(s.mfi, Finite(80.0))
    ensures c.None? <==> !Less(s.mfi, Finite(20.0)) && !Greater(s.mfi, Finite(80.0))
  {
    if Less(s.mfi, Finite(20.0)) then Vote(Buy, 1.0)
    else if Greater(s.mfi, Finite(80.0)) then Vote(Sell, 1.0)
    else None
  }

  /** PPO above its signal line: 1 to buy; otherwise (NaN included) 1 to sell. */
  function PpoRule(s: Snapshot): (c: Option<Contribution>)
    ensures c.Some? && c.value.points == 1.0
    ensures c == Vote(Buy, 1.0) <==> Greater(s.ppo, s.ppoSignal)
    ensures c == Vote(Sell, 1.0) <==> !Greater(s.ppo, s.ppoSignal)
  {
    if Greater(s.ppo, s.ppoSignal) then Vote(Buy, 1.0) else Vote(Sell, 1.0)
  }

  /** Close above VWAP: 1 to buy; otherwise 1 to sell. */
  function VwapRule(s: Snapshot): (c: Option<Contribution>)
    ensures c.Some? && c.value.points == 1.0
    ensures c == Vote(Buy, 1.0) <==> Greater(Finite(s.lastClose), s.vwap)
    ensures c == Vote(Sell, 1.0) <==> !Greater(Finite(s.lastClose), s.vwap)
  {
    if Greater(Finite(s.lastClose), s.vwap) then Vote(Buy, 1.0) else Vote(Sell, 1.0)
  }

  /** `((volumes[0] - volumes[1]) / volumes[1]) * 100`, a percentage. */
  function VolumeChange(s: Snapshot): (change: Num)
    ensures s.previousVolume != 0.0 ==>
      change == Finite((s.currentVolume - s.previousVolume) / s.previousVolume * 100.0)
    ensures s.previousVolume == 0.0 ==>
      (s.currentVolume == 0.0 <==> change.NaN?) &&
      (s.currentVolume > 0.0 <==> change.PosInf?) &&
      (s.currentVolume < 0.0 <==> change.NegInf?)
  {
    Mul(Div(Finite(s.currentVolume - s.previousVolume), Finite(s.previousVolume)), Finite(100.0))
  }

  /** Volume up more than 20% on the previous candle: 1 to buy on a rising
      candle, 1 to sell otherwise. */
  function VolumeChangeRule(s: Snapshot): (c: Option<Contribution>)
    ensures c.None? || 0.0 < c.value.points <= 1.0
    ensures c.Some? <==> Greater(VolumeChange(s), Finite(20.0))
    ensures c.Some? ==> c.value.points == 1.0 && (c.value.side == Buy <==> s.lastClose > s.lastOpen)
  {
    if !Greater(VolumeChange(s), Finite(20.0)) then None
    else if s.lastClose > s.lastOpen then Vote(Buy, 1.0)
    else Vote(Sell, 1.0)
  }

  /** Positive rate of change: 0.5 to buy; otherwise 0.5 to sell. */
  function MomentumRule(s: Snapshot): (c: Option<Contribution>)
    ensures c.Some? && c.value.points == 0.5
    ensures c == Vote(Buy, 0.5) <==> Greater(s.momentum, Finite(0.0))
    ensures c == Vote(Sell, 0.5) <==> !Greater(s.momentum, Finite(0.0))
  {
    if Greater(s.momentum, Finite(0.0)) then Vote(Buy, 0.5) else Vote(Sell, 0.5)
  }

  /** %R below -80: 1.5 to buy; above -20: 1.5 to sell; null: nothing. */
  function WilliamsRRule(s: Snapshot): (c: Option<Contribution>)
    ensures c.None? || 0.0 < c.value.points <= 1.5
    ensures c == Vote(Buy, 1.5) <==> s.williamsR.Some? && Less(s.williamsR.value, Finite(-80.0))
    ensures c == Vote(Sell, 1.5) <==> s.williamsR.Some? && Greater(s.williamsR.value, Finite(-20.0))
    ensures c.None? || c == Vote(Buy, 1.5) || c == Vote(Sell, 1.5)
  {
    match s.williamsR
    case None => None
    case Some(r) =>
      if Less(r, Finite(-80.0)) then Vote(Buy, 1.5)
      else if Greater(r, Finite(-20.0)) then Vote(Sell, 1.5)
      else None
  }

  /** The latest OBV above its moving average: 1 to buy; otherwise 1 to sell. */
  function ObvRule(s: Snapshot): (c: Option<Contribution>)
    ensures c.Some? && c.value.points == 1.0
    ensures c == Vote(Buy, 1.0) <==> Greater(Finite(s.obvLast), s.obvMA)
    ensures c == Vote(Sell, 1.0) <==> !Greater(Finite(s.obvLast), s.obvMA)
  {
    if Greater(Finite(s.obvLast), s.obvMA) then Vote(Buy, 1.0) else Vote(Sell, 1.0)
  }

  /** AO crossing zero upwards: 2 to buy; downwards: 2 to sell. */
  function AwesomeOscillatorRule(s: Snapshot): (c: Option<Contribution>)
    ensures c.None? || 0.0 < c.value.points <= 2.0
    ensures c == Vote(Buy, 2.0) <==> Greater(s.aoCurrent, Finite(0.0)) && Less(s.aoPrevious, Finite(0.0))
    ensures c == Vote(Sell, 2.0) <==> Less(s.aoCurrent, Finite(0.0)) && Greater(s.aoPrevious, Finite(0.0))
    ensures c.None? || c == Vote(Buy, 2.0) || c == Vote(Sell, 2.0)
  {
    if Greater(s.aoCurrent, Finite(0.0)) && Less(s.aoPrevious, Finite(0.0)) then Vote(Buy, 2.0)
    else if Less(s.aoCurrent, Finite(0.0)) && Greater(s.aoPrevious, Finite(0.0)) then Vote(Sell, 2.0)
    else None
  }

  /** Bull power positive and bear power negative: 1 to buy; the reverse: 1 to sell. */
  function ElderRayRule(s: Snapshot): (c: Option<Contribution>)
    ensures c.None? || 0.0 < c.value.points <= 1.0
    ensures c == Vote(Buy, 1.0) <==>
      Greater(s.elderRay.bullPower, Finite(0.0)) && Less(s.elderRay.bearPower, Finite(0.0))
    ensures c == Vote(Sell, 1.0) <==>
      Less(s.elderRay.bullPower, Finite(0.0)) && Greater(s.elderRay.bearPower, Finite(0.0))
    ensures c.None? || c == Vote(Buy, 1.0) || c == Vote(Sell, 1.0)
  {
    var p := s.elderRay;
    if Greater(p.bullPower, Finite(0.0)) && Less(p.bearPower, Finite(0.0)) then Vote(Buy, 1.0)
    else if Less(p.bullPower, Finite(0.0)) && Greater(p.bearPower, Finite(0.0)) then Vote(Sell, 1.0)
    else None
  }

  /** Close above both senkou spans: 2 to buy; below both: 2 to sell. */
  function IchimokuRule(s: Snapshot): (c: Option<Contribution>)
    ensures c.None? || 0.0 < c.value.points <= 2.0
    ensures c == Vote(Buy, 2.0) <==>
      Greater(Finite(s.lastClose), s.ichimoku.senkouA) && Greater(Finite(s.lastClose), s.ichimoku.senkouB)
    ensures c == Vote(Sell, 2.0) <==>
      Less(Finite(s.lastClose), s.ichimoku.senkouA) && Less(Finite(s.lastClose), s.ichimoku.senkouB)
    ensures c.None? || c == Vote(Buy, 2.0) || c == Vote(Sell, 2.0)
  {
    var close := Finite(s.lastClose);
    var cloud := s.ichimoku;
    if Greater(close, cloud.senkouA) && Greater(close, cloud.senkouB) then Vote(Buy, 2.0)
    else if Less(close, cloud.senkouA) && Less(close, cloud.senkouB) then Vote(Sell, 2.0)
    else None
  }

  /** Indices of the two Williams %R applications in Rules. */
  const FirstWilliamsR: nat := 9
  const SecondWilliamsR: nat := 10

  /** Every rule application of one evaluation, in source order. */
  function Rules(s: Snapshot): (rules: seq<Option<Contribution>>)
    ensures |rules| == 15
    ensures rules[FirstWilliamsR] == rules[SecondWilliamsR] == WilliamsRRule(s)
  {
    [ RsiRule(s)                // index.js:332-336
    , EmaRule(s)                // index.js:339-351
    , AdxRule(s)                // index.js:358-364
    , StochasticRule(s)         // index.js:402-410
    , MfiRule(s)                // index.js:413-418
    , PpoRule(s)                // index.js:421-425
    , VwapRule(s)               // index.js:428-433
    , VolumeChangeRule(s)       // index.js:436-443
    , MomentumRule(s)           // index.js:451-455
    , WilliamsRRule(s)          // index.js:466-474
    , WilliamsRRule(s)          // index.js:500-506, the same rule again
    , ObvRule(s)                // index.js:509-513
    , AwesomeOscillatorRule(s)  // index.js:516-520
    , ElderRayRule(s)           // index.js:523-527
    , IchimokuRule(s)           // index.js:530-534
    ]
  }

  // ---------------------------------------------------------------------------
  // Accumulators

  /** What one rule application adds to the given side's accumulator. */
  function Points(c: Option<Contribution>, side: Side): real {
    if c.Some? && c.value.side == side then c.value.points else 0.0
  }

  /** The accumulator for one side after applying the given rules, starting from 0. */
  function SumFor(rules: seq<Option<Contribution>>, side: Side): real
    decreases |rules|
  {
    if |rules| == 0 then 0.0
    else SumFor(rules[..|rules| - 1], side) + Points(rules[|rules| - 1], side)
  }

  /** scoreCompra for Buy, scoreVenda for Sell. */
  function Score(s: Snapshot, side: Side): (score: real)
    ensures score >= 0.0
  {
    RulesVoteWellFormed(s);
    ScoresOnlyIncrease(Rules(s), side, 0, 15);
    assert Rules(s)[..15] == Rules(s);
    SumFor(Rules(s), side)
  }

  /** A rule application either adds nothing or adds a positive weight to one side. */
  ghost predicate WellFormedVote(c: Option<Contribution>) {
    c.None? || c.value.points > 0.0
  }

  lemma RulesVoteWellFormed(s: Snapshot)
    ensures forall i :: 0 <= i < |Rules(s)| ==> WellFormedVote(Rules(s)[i])
  {
    var rules := Rules(s);
    assert WellFormedVote(rules[0]) && WellFormedVote(rules[1]) && WellFormedVote(rules[2]);
    assert WellFormedVote(rules[3]) && WellFormedVote(rules[4]) && WellFormedVote(rules[5]);
    assert WellFormedVote(rules[6]) && WellFormedVote(rules[7]) && WellFormedVote(rules[8]);
    assert WellFormedVote(rules[9]) && WellFormedVote(rules[10]) && WellFormedVote(rules[11]);
    assert WellFormedVote(rules[12]) && WellFormedVote(rules[13]) && WellFormedVote(rules[14]);
    FifteenWellFormed(rules);
  }

  lemma FifteenWellFormed(rules: seq<Option<Contribution>>)
    requires |rules| == 15
    requires WellFormedVote(rules[0]) && WellFormedVote(rules[1]) && WellFormedVote(rules[2])
    requires WellFormedVote(rules[3]) && WellFormedVote(rules[4]) && WellFormedVote(rules[5])
    requires WellFormedVote(rules[6]) && WellFormedVote(rules[7]) && WellFormedVote(rules[8])
    requires WellFormedVote(rules[9]) && WellFormedVote(rules[10]) && WellFormedVote(rules[11])
    requires WellFormedVote(rules[12]) && WellFormedVote(rules[13]) && WellFormedVote(rules[14])
    ensures forall i :: 0 <= i < |rules| ==> WellFormedVote(rules[i])
  {
    forall i | 0 <= i < |rules|
      ensures WellFormedVote(rules[i])
    {
    }
  }

  lemma {:induction false} SumForAppend(rules: seq<Option<Contribution>>, more: seq<Option<Contribution>>, side: Side)
    ensures SumFor(rules + more, side) == SumFor(rules, side) + SumFor(more, side)
    decreases |more|
  {
    if |more| > 0 {
      var last := |more| - 1;
      assert (rules + more)[..|rules + more| - 1] == rules + more[..last];
      SumForAppend(rules, more[..last], side);
    } else {
      assert rules + more == rules;
    }
  }

  /** Accumulators only ever grow: applying further well-formed rules never lowers a score. */
  lemma {:induction false} ScoresOnlyIncrease(rules: seq<Option<Contribution>>, side: Side, j: nat, k: nat)
    requires forall i :: 0 <= i < |rules| ==> WellFormedVote(rules[i])
    requires j <= k <= |rules|
    ensures 0.0 <= SumFor(rules[..j], side) <= SumFor(rules[..k], side)
    decreases k
  {
    if j < k {
      ScoresOnlyIncrease(rules, side, j, k - 1);
      assert rules[..k][..k - 1] == rules[..k - 1];
    } else if k > 0 {
      ScoresOnlyIncrease(rules, side, k - 1, k - 1);
      assert rules[..k][..k - 1] == rules[..k - 1];
    }
  }

  /** Both accumulators start at 0 and only increase, so both end non-negative. */
  lemma ScoresNonNegative(s: Snapshot)
    ensures Score(s, Buy) >= 0.0 && Score(s, Sell) >= 0.0
  {
    RulesVoteWellFormed(s);
    ScoresOnlyIncrease(Rules(s), Buy, 0, 15);
    ScoresOnlyIncrease(Rules(s), Sell, 0, 15);
    assert Rules(s)[..15] == Rules(s);
  }

  lemma SumForStep(rules: seq<Option<Contribution>>, k: nat, side: Side)
    requires 1 <= k <= |rules|
    ensures SumFor(rules[..k], side) == SumFor(rules[..k - 1], side) + Points(rules[k - 1], side)
  {
    assert rules[..k][..k - 1] == rules[..k - 1];
  }

  /** The sum over fifteen votes, written out term by term. */
  lemma SumForFifteen(rules: seq<Option<Contribution>>, side: Side)
    requires |rules| == 15
    ensures SumFor(rules, side) ==
      Points(rules[0], side) + Points(rules[1], side) + Points(rules[2], side)
      + Points(rules[3], side) + Points(rules[4], side) + Points(rules[5], side)
      + Points(rules[6], side) + Points(rules[7], side) + Points(rules[8], side)
      + Points(rules[9], side) + Points(rules[10], side) + Points(rules[11], side)
      + Points(rules[12], side) + Points(rules[13], side) + Points(rules[14], side)
  {
    assert rules[..15] == rules;
    assert rules[..0] == [];
    SumForStep(rules, 1, side);
    SumForStep(rules, 2, side);
    SumForStep(rules, 3, side);
    SumForStep(rules, 4, side);
    SumForStep(rules, 5, side);
    SumForStep(rules, 6, side);
    SumForStep(rules, 7, side);
    SumForStep(rules, 8, side);
    SumForStep(rules, 9, side);
    SumForStep(rules, 10, side);
    SumForStep(rules, 11, side);
    SumForStep(rules, 12, side);
    SumForStep(rules, 13, side);
    SumForStep(rules, 14, side);
    SumForStep(rules, 15, side);
  }

  /** A score is the plain sum of what the fifteen rule applications add to that side. */
  lemma ScoreExpanded(s: Snapshot, side: Side)
    ensures Score(s, side) ==
      Points(RsiRule(s), side) + Points(EmaRule(s), side) + Points(AdxRule(s), side)
      + Points(StochasticRule(s), side) + Points(MfiRule(s), side) + Points(PpoRule(s), side)
      + Points(VwapRule(s), side) + Points(VolumeChangeRule(s), side) + Points(MomentumRule(s), side)
      + Points(WilliamsRRule(s), side) + Points(WilliamsRRule(s), side) + Points(ObvRule(s), side)
      + Points(AwesomeOscillatorRule(s), side) + Points(ElderRayRule(s), side) + Points(IchimokuRule(s), side)
  {
    SumForFifteen(Rules(s), side);
  }

  /** What the two Williams %R applications add to one side together. */
  function WilliamsRPoints(s: Snapshot, side: Side): real {
    Points(Rules(s)[FirstWilliamsR], side) + Points(Rules(s)[SecondWilliamsR], side)
  }

  /** Applied twice under identical conditions, Williams %R adds 0 or exactly 3
      to one accumulator and nothing to the other: 3 to the buy score when
      %R < -80, 3 to the sell score when %R > -20. */
  lemma WilliamsRCountsTwice(s: Snapshot)
    ensures WilliamsRPoints(s, Buy) == 0.0 || WilliamsRPoints(s, Buy) == 3.0
    ensures WilliamsRPoints(s, Sell) == 0.0 || WilliamsRPoints(s, Sell) == 3.0
    ensures WilliamsRPoints(s, Buy) == 0.0 || WilliamsRPoints(s, Sell) == 0.0
    ensures WilliamsRPoints(s, Buy) == 3.0 <==> s.williamsR.Some? && Less(s.williamsR.value, Finite(-80.0))
    ensures WilliamsRPoints(s, Sell) == 3.0 <==>
      s.williamsR.Some? && !Less(s.williamsR.value, Finite(-80.0)) && Greater(s.williamsR.value, Finite(-20.0))
  {
  }

  /** Each side can collect at most 20 points, the two together at most 20, and
      at least 3.5 points are always cast: PPO, VWAP, momentum and OBV vote on every evaluation. */
  lemma ScoreTotals(s: Snapshot)
    ensures 3.5 <= Score(s, Buy) + Score(s, Sell) <= 20.0
    ensures Score(s, Buy) <= 20.0 && Score(s, Sell) <= 20.0
  {
    ScoreExpanded(s, Buy);
    ScoreExpanded(s, Sell);
    VoteTotals(
      RsiRule(s), EmaRule(s), AdxRule(s), StochasticRule(s), MfiRule(s),
      PpoRule(s), VwapRule(s), VolumeChangeRule(s), MomentumRule(s), WilliamsRRule(s),
      ObvRule(s), AwesomeOscillatorRule(s), ElderRayRule(s), IchimokuRule(s));
  }

  /** The arithmetic behind ScoreTotals, over the fourteen distinct rules with their weights. */
  lemma VoteTotals(
    rsi: Option<Contribution>, ema: Option<Contribution>, adx: Option<Contribution>,
    stochastic: Option<Contribution>, mfi: Option<Contribution>, ppo: Option<Contribution>,
    vwap: Option<Contribution>, volume: Option<Contribution>, momentum: Option<Contribution>,
    williamsR: Option<Contribution>, obv: Option<Contribution>, ao: Option<Contribution>,
    elderRay: Option<Contribution>, ichimoku: Option<Contribution>)
    requires rsi.None? || 0.0 < rsi.value.points <= 2.0
    requires ema.None? || 0.0 < ema.value.points <= 2.0
    requires adx.None? || 0.0 < adx.value.points <= 1.0
    requires stochastic.None? || 0.0 < stochastic.value.points <= 1.5
    requires mfi.None? || 0.0 < mfi.value.points <= 1.0
    requires ppo.Some? && ppo.value.points == 1.0
    requires vwap.Some? && vwap.value.points == 1.0
    requires volume.None? || 0.0 < volume.value.points <= 1.0
    requires momentum.Some? && momentum.value.points == 0.5
    requires williamsR.None? || 0.0 < williamsR.value.points <= 1.5
    requires obv.Some? && obv.value.points == 1.0
    requires ao.None? || 0.0 < ao.value.points <= 2.0
    requires elderRay.None? || 0.0 < elderRay.value.points <= 1.0
    requires ichimoku.None? || 0.0 < ichimoku.value.points <= 2.0
    ensures var buy := Points(rsi, Buy) + Points(ema, Buy) + Points(adx, Buy) + Points(stochastic, Buy)
          + Points(mfi, Buy) + Points(ppo, Buy) + Points(vwap, Buy) + Points(volume, Buy)
          + Points(momentum, Buy) + Points(williamsR, Buy) + Points(williamsR, Buy) + Points(obv, Buy)
          + Points(ao, Buy) + Points(elderRay, Buy) + Points(ichimoku, Buy);
      var sell := Points(rsi, Sell) + Points(ema, Sell) + Points(adx, Sell) + Points(stochastic, Sell)
          + Points(mfi, Sell) + Points(ppo, Sell) + Points(vwap, Sell) + Points(volume, Sell)
          + Points(momentum, Sell) + Points(williamsR, Sell) + Points(williamsR, Sell) + Points(obv, Sell)
          + Points(ao, Sell) + Points(elderRay, Sell) + Points(ichimoku, Sell);
      0.0 <= buy <= 20.0 && 0.0 <= sell <= 20.0 && 3.5 <= buy + sell <= 20.0
  {
    VoteWithin(rsi, 2.0);
    VoteWithin(ema, 2.0);
    VoteWithin(adx, 1.0);
    VoteWithin(stochastic, 1.5);
    VoteWithin(mfi, 1.0);
    VoteCast(ppo, 1.0);
    VoteCast(vwap, 1.0);
    VoteWithin(volume, 1.0);
    VoteCast(momentum, 0.5);
    VoteWithin(williamsR, 1.5);
    VoteCast(obv, 1.0);
    VoteWithin(ao, 2.0);
    VoteWithin(elderRay, 1.0);
    VoteWithin(ichimoku, 2.0);
  }

  lemma VoteWithin(c: Option<Contribution>, cap: real)
    requires cap >= 0.0
    requires c.None? || 0.0 < c.value.points <= cap
    ensures 0.0 <= Points(c, Buy) && 0.0 <= Points(c, Sell)
    ensures Points(c, Buy) + Points(c, Sell) <= cap
  {
  }

  lemma VoteCast(c: Option<Contribution>, weight: real)
    requires c.Some? && c.value.points == weight && weight > 0.0
    ensures 0.0 <= Points(c, Buy) && 0.0 <= Points(c, Sell)
    ensures Points(c, Buy) + Points(c, Sell) == weight
  {
  }

  // ---------------------------------------------------------------------------
  // Decision (index.js:537-560)

  /** pontuacaoMinima */
  const MinimumScore: real := 5.0

  /** The latest candle's range exceeds twice the ATR (index.js:354-355). */
  predicate HighVolatility(s: Snapshot)
    ensures HighVolatility(s) <==>
      (s.atr.Finite? && s.lastHigh - s.lastLow > s.atr.v * 2.0) || s.atr == NegInf
  {
    Greater(Finite(s.lastHigh - s.lastLow), Mul(s.atr, Finite(2.0)))
  }

  /** COMPRA needs the buy score above the minimum and above the sell score on a
      calm bar; VENDA is the mirror; anything else, including a tie or a
      high-volatility bar, is NEUTRO. */
  function Decide(buy: real, sell: real, highVolatility: bool): (v: Verdict)
    ensures v == Signal(Compra) <==> buy > MinimumScore && buy > sell && !highVolatility
    ensures v == Signal(Venda) <==> sell > MinimumScore && sell > buy && !highVolatility
    ensures buy == sell || highVolatility ==> v == Neutro
  {
    if buy > MinimumScore && buy > sell then
      if !highVolatility then Signal(Compra) else Neutro
    else if sell > MinimumScore && sell > buy then
      if !highVolatility then Signal(Venda) else Neutro
    else Neutro
  }

  /** sinalFinal of one evaluation. */
  function FinalSignal(s: Snapshot): (v: Verdict)
    ensures v == Signal(Compra) <==>
      Score(s, Buy) > MinimumScore && Score(s, Buy) > Score(s, Sell) && !HighVolatility(s)
    ensures v == Signal(Venda) <==>
      Score(s, Sell) > MinimumScore && Score(s, Sell) > Score(s, Buy) && !HighVolatility(s)
  {
    Decide(Score(s, Buy), Score(s, Sell), HighVolatility(s))
  }

  /** The rules that vote only when their condition holds (all but PPO, VWAP, momentum and OBV). */
  predicate SomeConditionalRuleVotes(s: Snapshot, side: Side) {
    || Points(RsiRule(s), side) > 0.0
    || Points(EmaRule(s), side) > 0.0
    || Points(AdxRule(s), side) > 0.0
    || Points(StochasticRule(s), side) > 0.0
    || Points(MfiRule(s), side) > 0.0
    || Points(VolumeChangeRule(s), side) > 0.0
    || Points(WilliamsRRule(s), side) > 0.0
    || Points(AwesomeOscillatorRule(s), side) > 0.0
    || Points(ElderRayRule(s), side) > 0.0
    || Points(IchimokuRule(s), side) > 0.0
  }

  /** The always-voting rules bring at most 3.5 points, below the minimum of 5,
      so no signal is issued unless some conditional rule votes for its side. */
  lemma SignalNeedsConditionalVote(s: Snapshot)
    ensures FinalSignal(s) == Signal(Compra) ==> SomeConditionalRuleVotes(s, Buy)
    ensures FinalSignal(s) == Signal(Venda) ==> SomeConditionalRuleVotes(s, Sell)
  {
    ScoreExpanded(s, Buy);
    ScoreExpanded(s, Sell);
  }

  /** Every buy condition of the fifteen rule applications holds. */
  ghost predicate AllBuyConditions(s: Snapshot) {
    && Less(s.rsi, Finite(30.0))
    && Greater(s.ema10, s.ema20) && Greater(Finite(s.lastClose), s.ema10)
    && Greater(Finite(s.currentVolume), s.volumeMA)
    && Greater(s.adx, Finite(25.0))
    && s.stochastic.Some? && Less(s.stochastic.value.k, Finite(20.0))
    && Greater(s.stochastic.value.k, s.stochastic.value.d)
    && Less(s.mfi, Finite(20.0))
    && Greater(s.ppo, s.ppoSignal)
    && Greater(Finite(s.lastClose), s.vwap)
    && Greater(VolumeChange(s), Finite(20.0)) && s.lastClose > s.lastOpen
    && Greater(s.momentum, Finite(0.0))
    && s.williamsR.Some? && Less(s.williamsR.value, Finite(-80.0))
    && Greater(Finite(s.obvLast), s.obvMA)
    && Greater(s.aoCurrent, Finite(0.0)) && Less(s.aoPrevious, Finite(0.0))
    && Greater(s.elderRay.bullPower, Finite(0.0)) && Less(s.elderRay.bearPower, Finite(0.0))
    && Greater(Finite(s.lastClose), s.ichimoku.senkouA) && Greater(Finite(s.lastClose), s.ichimoku.senkouB)
  }

  /** When every buy condition holds the buy score is the full 20 points (18.5
      plus the second Williams %R application), nothing goes to the sell side,
      and a calm bar yields COMPRA. */
  lemma AllBuyConditionsGiveCompra(s: Snapshot)
    requires AllBuyConditions(s)
    ensures Score(s, Buy) == 20.0 && Score(s, Sell) == 0.0
    ensures !HighVolatility(s) ==> FinalSignal(s) == Signal(Compra)
    ensures HighVolatility(s) ==> FinalSignal(s) == Neutro
  {
    ScoreExpanded(s, Buy);
    ScoreExpanded(s, Sell);
  }

  /** The scores with the Williams %R rule applied once. */
  function SingleWilliamsRScore(s: Snapshot, side: Side): real {
    Score(s, side) - Points(WilliamsRRule(s), side)
  }

  /** The second Williams %R application can decide the outcome: here the source
      issues COMPRA with 5.5 points where a single application leaves 4.0 and NEUTRO. */
  lemma DuplicateWilliamsRDecides()
    ensures var s := Snapshot(
        100.0, 100.0, 101.0, 99.0, 10.0, 10.0,
        NaN, NaN, NaN, NaN, Finite(5.0), NaN, None, NaN,
        Finite(1.0), Finite(0.0), Finite(90.0), Finite(1.0), NaN, NaN, NaN,
        Some(Finite(-90.0)), 0.0, ElderRayPower(NaN, NaN), IchimokuLines(NaN, NaN, NaN, NaN));
      && FinalSignal(s) == Signal(Compra)
      && Decide(SingleWilliamsRScore(s, Buy), SingleWilliamsRScore(s, Sell), HighVolatility(s)) == Neutro
  {
    var s := Snapshot(
        100.0, 100.0, 101.0, 99.0, 10.0, 10.0,
        NaN, NaN, NaN, NaN, Finite(5.0), NaN, None, NaN,
        Finite(1.0), Finite(0.0), Finite(90.0), Finite(1.0), NaN, NaN, NaN,
        Some(Finite(-90.0)), 0.0, ElderRayPower(NaN, NaN), IchimokuLines(NaN, NaN, NaN, NaN));
    ScoreExpanded(s, Buy);
    ScoreExpanded(s, Sell);
    assert Score(s, Buy) == 5.5 && Score(s, Sell) == 1.0;
  }
}
