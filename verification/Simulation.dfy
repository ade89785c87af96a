/** One trade replayed under a stop-loss distance and a reward ratio. */
module Simulation {
  import opened Wrappers

  const EPSILON: real := 0.000000001

  datatype Side = Buy | Sell

  datatype Trade = Trade(positionId: int, side: Side, entry: real, actualProfit: real, high: Option<real>,
                         low: Option<real>)

  datatype Exit = TpHit | SlHit | Manual | BothHit

  datatype Simulated = Simulated(positionId: int, profit: real, exit: Exit, slTriggered: bool, tpTriggered: bool,
                                 manualClose: bool, slPrice: Option<real>, tpPrice: Option<real>)

  datatype SimError = BadDistance | BadRatio

  /** The rules of a sweep: which of two hits counts, and what a point is worth. */
  datatype Rules = Rules(conservative: bool, dollarPerPoint: real)

  predicate Gte(a: real, b: real) { a > b - EPSILON }
  predicate Lte(a: real, b: real) { a < b + EPSILON }

  /** Rounding to four decimals, halves away from zero. */
  function Units(x: real): int {
    if x >= 0.0 then (x * 10000.0 + 0.5).Floor else -((-x * 10000.0 + 0.5).Floor)
  }

  function Fixed4(x: real): real { Units(x) as real / 10000.0 }

  predicate TpInRange(t: Trade, high: real, low: real, sl: real, rr: real) {
    if t.side == Buy then Gte(high, t.entry + sl * rr) else Lte(low, t.entry - sl * rr)
  }

  predicate SlInRange(t: Trade, high: real, low: real, sl: real) {
    if t.side == Buy then Lte(low, t.entry - sl) else Gte(high, t.entry + sl)
  }

  function SlPrice(t: Trade, sl: real): real { if t.side == Buy then t.entry - sl else t.entry + sl }
  function TpPrice(t: Trade, sl: real, rr: real): real {
    if t.side == Buy then t.entry + sl * rr else t.entry - sl * rr
  }

  function Gain(sl: real, rr: real, dollarPerPoint: real): real { sl * rr * dollarPerPoint }
  function Loss(sl: real, dollarPerPoint: real): real { -sl * dollarPerPoint }

  function SimulateTrade(t: Trade, sl: real, rr: real, rules: Rules): Result<Simulated, SimError> {
    if sl <= 0.0 then Err(BadDistance)
    else if rr < 0.0 then Err(BadRatio)
    else if t.high.None? || t.low.None? then
      Ok(Simulated(t.positionId, t.actualProfit, Manual, false, false, true, None, None))
    else
      var tp := TpInRange(t, t.high.value, t.low.value, sl, rr);
      var hit := SlInRange(t, t.high.value, t.low.value, sl);
      var gain, loss := Gain(sl, rr, rules.dollarPerPoint), Loss(sl, rules.dollarPerPoint);
      if tp && hit then
        Ok(Simulated(t.positionId, Fixed4(if rules.conservative then loss else gain), BothHit, true, true, false,
                     Some(SlPrice(t, sl)), Some(TpPrice(t, sl, rr))))
      else if tp then
        Ok(Simulated(t.positionId, Fixed4(gain), TpHit, false, true, false, None, Some(TpPrice(t, sl, rr))))
      else if hit then Ok(Simulated(t.positionId, Fixed4(loss), SlHit, true, false, false, Some(SlPrice(t, sl)), None))
      else Ok(Simulated(t.positionId, Fixed4(t.actualProfit), Manual, false, false, true, None, None))
  }

  // ---- Rounding ----

  lemma FloorMonotone(x: real, y: real)
    requires x <= y
    ensures x.Floor <= y.Floor
  {}

  lemma UnitsMonotone(x: real, y: real)
    requires x <= y
    ensures Units(x) <= Units(y)
  {
    if x >= 0.0 {
      FloorMonotone(x * 10000.0 + 0.5, y * 10000.0 + 0.5);
    } else if y < 0.0 {
      FloorMonotone(-y * 10000.0 + 0.5, -x * 10000.0 + 0.5);
    }
  }

  /** Rounding keeps order, so comparing rounded figures never reverses a comparison. */
  lemma Fixed4Monotone(x: real, y: real)
    requires x <= y
    ensures Fixed4(x) <= Fixed4(y)
  {
    UnitsMonotone(x, y);
  }

  // ---- What the engine promises ----

  predicate Valid(sl: real, rr: real) { sl > 0.0 && rr >= 0.0 }

  predicate TakenSl(t: Trade, sl: real, rr: real, rules: Rules) {
    SimulateTrade(t, sl, rr, rules).Ok? && SimulateTrade(t, sl, rr, rules).value.slTriggered
  }

  predicate TakenTp(t: Trade, sl: real, rr: real, rules: Rules) {
    SimulateTrade(t, sl, rr, rules).Ok? && SimulateTrade(t, sl, rr, rules).value.tpTriggered
  }

  /** A wider stop is hit no more often than a narrower one, whatever ratio and rules either is combined with. */
  lemma WiderStopIsHitLess(t: Trade, sl: real, wider: real, rr: real, other: real, rules: Rules, others: Rules)
    requires Valid(sl, rr) && Valid(wider, other) && sl <= wider && TakenSl(t, wider, other, others)
    ensures TakenSl(t, sl, rr, rules)
  {}

  /** A farther target is hit no more often than a nearer one. */
  lemma FartherTargetIsHitLess(t: Trade, sl: real, rr: real, higher: real, rules: Rules)
    requires Valid(sl, rr) && rr <= higher && TakenTp(t, sl, higher, rules)
    ensures TakenTp(t, sl, rr, rules)
  {
    assert sl * rr <= sl * higher;
  }

  /** The same price path seen upside down. */
  function Mirrored(t: Trade): Trade {
    t.(side := if t.side == Buy then Sell else Buy, entry := -t.entry,
       high := if t.low.Some? then Some(-t.low.value) else None, low := if t.high.Some? then Some(-t.high.value)
         else None)
  }

  function Negated(p: Option<real>): Option<real> { if p.Some? then Some(-p.value) else None }

  /** Buying and selling are treated alike: the mirrored trade ends the same way, at mirrored prices. */
  lemma MirrorImage(t: Trade, sl: real, rr: real, rules: Rules)
    ensures SimulateTrade(Mirrored(t), sl, rr, rules)
         == match SimulateTrade(t, sl, rr, rules)
            case Err(e) => Err(e)
            case Ok(r) => Ok(r.(slPrice := Negated(r.slPrice), tpPrice := Negated(r.tpPrice)))
  {}

  /** The conservative rule never reports more profit than the other one, and differs from it only when both prices were
      hit. */
  lemma ConservativeIsLower(t: Trade, sl: real, rr: real, dollarPerPoint: real)
    requires Valid(sl, rr) && dollarPerPoint >= 0.0
    ensures var cautious := SimulateTrade(t, sl, rr, Rules(true, dollarPerPoint)).value;
            var hopeful := SimulateTrade(t, sl, rr, Rules(false, dollarPerPoint)).value;
            && cautious.profit <= hopeful.profit && (cautious.exit != BothHit ==> cautious == hopeful)
            && cautious.(profit := hopeful.profit) == hopeful
  {
    LossBelowGain(sl, rr, dollarPerPoint);
    Fixed4Monotone(Loss(sl, dollarPerPoint), Gain(sl, rr, dollarPerPoint));
    RuleMattersOnlyForBoth(t, sl, rr, dollarPerPoint);
  }

  lemma RuleMattersOnlyForBoth(t: Trade, sl: real, rr: real, dollarPerPoint: real)
    requires Valid(sl, rr)
    ensures var cautious := SimulateTrade(t, sl, rr, Rules(true, dollarPerPoint)).value;
            SimulateTrade(t, sl, rr, Rules(false, dollarPerPoint)).value ==
              if cautious.exit == BothHit then cautious.(profit := Fixed4(Gain(sl, rr, dollarPerPoint))) else cautious
    ensures var cautious := SimulateTrade(t, sl, rr, Rules(true, dollarPerPoint)).value;
            cautious.exit == BothHit ==> cautious.profit == Fixed4(Loss(sl, dollarPerPoint))
  {}

  lemma ProductNotNegative(a: real, b: real)
    requires a >= 0.0 && b >= 0.0
    ensures a * b >= 0.0
  {}

  lemma LossBelowGain(sl: real, rr: real, dollarPerPoint: real)
    requires Valid(sl, rr) && dollarPerPoint >= 0.0
    ensures Loss(sl, dollarPerPoint) <= Gain(sl, rr, dollarPerPoint)
  {
    ProductNotNegative(sl, rr);
    ProductNotNegative(sl * rr, dollarPerPoint);
    ProductNotNegative(sl, dollarPerPoint);
    assert -sl * dollarPerPoint == -(sl * dollarPerPoint);
  }

  // ---- Counting over trades ----

  function SlCount(trades: seq<Trade>, sl: real, rr: real, rules: Rules): nat {
    if trades == [] then 0
    else SlCount(trades[..|trades| - 1], sl, rr, rules) + (if TakenSl(trades[|trades| - 1], sl, rr, rules) then 1
                                                           else 0)
  }

  function TpCount(trades: seq<Trade>, sl: real, rr: real, rules: Rules): nat {
    if trades == [] then 0
    else TpCount(trades[..|trades| - 1], sl, rr, rules) + (if TakenTp(trades[|trades| - 1], sl, rr, rules) then 1
                                                           else 0)
  }

  /** Stop-loss counts never rise with the distance, and the ratio and the rules have no part in them. */
  lemma {:induction false} SlCountFalls(trades: seq<Trade>, sl: real, wider: real, rr: real, other: real, rules: Rules,
                                        others: Rules)
    requires Valid(sl, rr) && Valid(wider, other) && sl <= wider
    ensures SlCount(trades, wider, other, others) <= SlCount(trades, sl, rr, rules)
    ensures sl == wider ==> SlCount(trades, wider, other, others) == SlCount(trades, sl, rr, rules)
  {
    if trades != [] {
      SlCountFalls(trades[..|trades| - 1], sl, wider, rr, other, rules, others);
      var t := trades[|trades| - 1];
      if TakenSl(t, wider, other, others) {
        WiderStopIsHitLess(t, sl, wider, rr, other, rules, others);
      }
      if sl == wider && TakenSl(t, sl, rr, rules) {
        WiderStopIsHitLess(t, wider, sl, other, rr, others, rules);
      }
    }
  }

  /** Take-profit counts never rise with the ratio. */
  lemma {:induction false} TpCountFalls(trades: seq<Trade>, sl: real, rr: real, higher: real, rules: Rules)
    requires Valid(sl, rr) && rr <= higher
    ensures TpCount(trades, sl, higher, rules) <= TpCount(trades, sl, rr, rules)
  {
    if trades != [] {
      TpCountFalls(trades[..|trades| - 1], sl, rr, higher, rules);
      if TakenTp(trades[|trades| - 1], sl, higher, rules) {
        FartherTargetIsHitLess(trades[|trades| - 1], sl, rr, higher, rules);
      }
    }
  }
}
