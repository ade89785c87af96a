/** Every trade under every combination of a grid, collected by key and summed up per combination. */
module Sweep {
  import opened Wrappers
  import opened Simulation

  // ---- Grids ----

  // The grid loop ends: its steps go up, or it never starts.
  predicate Ends(min: real, max: real, step: real) { step > 0.0 || min > max + EPSILON }

  /** How many values lie between the bounds. */
  function Steps(min: real, max: real, step: real): nat
    requires Ends(min, max, step)
  {
    if min > max + EPSILON then 0 else ((max + EPSILON - min) / step).Floor + 1
  }

  function Rounded(v: real): real { (v * 10000.0 + 0.5).Floor as real / 10000.0 }

  function Grid(min: real, max: real, step: real): (g: seq<real>)
    requires Ends(min, max, step)
    ensures |g| == Steps(min, max, step) && forall k | 0 <= k < |g| :: g[k] == GridValue(min, step, k)
  {
    seq(Steps(min, max, step), (k: nat) => GridValue(min, step, k))
  }

  function GridValue(min: real, step: real, k: nat): real { Rounded(min + k as real * step) }

  lemma DivideBound(x: real, k: real, step: real)
    requires step > 0.0
    ensures k * step <= x <==> k <= x / step
  {
    var q := x / step;
    assert q * step == x;
    if k <= q {
      Scale(k, q, step);
    } else {
      Scale(q, k, step);
      assert (k - q) * step > 0.0;
    }
  }

  lemma Scale(a: real, b: real, step: real)
    requires a <= b && step > 0.0
    ensures a * step <= b * step
  {}

  lemma WithinSteps(min: real, max: real, step: real, k: nat)
    requires step > 0.0
    ensures k < Steps(min, max, step) <==> min + k as real * step <= max + EPSILON
  {
    DivideBound(max + EPSILON - min, k as real, step);
    var room := (max + EPSILON - min) / step;
    DivideBound(max + EPSILON - min, 0.0, step);
    if k as real <= room {
      assert room.Floor as real + 1.0 > room;
    }
  }

  method BuildValues(min: real, max: real, step: real) returns (vals: seq<real>)
    requires Ends(min, max, step)
    ensures vals == Grid(min, max, step)
  {
    vals := [];
    var v := min;
    while v <= max + EPSILON
      invariant |vals| <= Steps(min, max, step)
      invariant forall k | 0 <= k < |vals| :: vals[k] == GridValue(min, step, k)
      invariant v == min + |vals| as real * step
      invariant v <= max + EPSILON <==> |vals| < Steps(min, max, step)
      decreases Steps(min, max, step) - |vals|
    {
      assert Rounded(v) == GridValue(min, step, |vals|);
      vals := vals + [Rounded(v)];
      OneStepOn(min, step, |vals| - 1);
      v := v + step;
      WithinSteps(min, max, step, |vals|);
    }
  }

  lemma OneStepOn(min: real, step: real, k: nat)
    ensures min + k as real * step + step == min + (k + 1) as real * step
  {}

  predicate NoRepeats(values: seq<real>) { forall i, j | 0 <= i < j < |values| :: values[i] != values[j] }

  lemma {:induction false} FarApart(min: real, step: real, i: nat, j: nat)
    requires step >= 0.0001 && i < j
    ensures min + i as real * step + 0.0001 <= min + j as real * step
  {
    OneStepOn(min, step, j - 1);
    if i < j - 1 {
      FarApart(min, step, i, j - 1);
    }
  }

  /** Steps of a ten-thousandth or more never round two values of a grid together. */
  lemma CoarseGridsDoNotRepeat(min: real, max: real, step: real)
    requires step >= 0.0001
    ensures NoRepeats(Grid(min, max, step))
  {
    var g := Grid(min, max, step);
    forall i, j | 0 <= i < j < |g| ensures g[i] != g[j] {
      ValuesApart(min, step, i, j);
    }
  }

  lemma ValuesApart(min: real, step: real, i: nat, j: nat)
    requires step >= 0.0001 && i < j
    ensures GridValue(min, step, i) < GridValue(min, step, j)
  {
    FarApart(min, step, i, j);
    RoundedApart(min + i as real * step, min + j as real * step);
  }

  lemma RoundedApart(x: real, y: real)
    requires x + 0.0001 <= y
    ensures Rounded(x) < Rounded(y)
  {
    assert x * 10000.0 + 1.5 <= y * 10000.0 + 0.5;
    FloorMonotone(x * 10000.0 + 0.5 + 1.0, y * 10000.0 + 0.5);
  }

  // ---- Points and keys ----

  datatype Point = Point(sl: real, rr: real)

  datatype Key = Key(sl: int, rr: int)

  function KeyOf(p: Point): Key { Key(Units(p.sl), Units(p.rr)) }

  function Row(sl: real, rrs: seq<real>): (r: seq<Point>)
    ensures |r| == |rrs| && forall i | 0 <= i < |r| :: r[i] == Point(sl, rrs[i])
  {
    seq(|rrs|, i requires 0 <= i < |rrs| => Point(sl, rrs[i]))
  }

  function Points(sls: seq<real>, rrs: seq<real>): seq<Point> {
    if sls == [] then [] else Points(sls[..|sls| - 1], rrs) + Row(sls[|sls| - 1], rrs)
  }

  type Results = map<Key, seq<Simulated>>

  function Collected(m: Results, key: Key): seq<Simulated> { if key in m then m[key] else [] }

  function Push(m: Results, key: Key, r: Simulated): Results { m[key := Collected(m, key) + [r]] }

  predicate AllValid(points: seq<Point>) { forall p | p in points :: Valid(p.sl, p.rr) }

  function Outcome(t: Trade, p: Point, rules: Rules): Simulated
    requires Valid(p.sl, p.rr)
  {
    SimulateTrade(t, p.sl, p.rr, rules).value
  }

  /** The sweep's inner loops: the first point with bad parameters ends it. */
  function TryPoints(m: Results, t: Trade, points: seq<Point>, rules: Rules): Result<Results, SimError> {
    if points == [] then Ok(m)
    else
      var p := points[|points| - 1];
      match TryPoints(m, t, points[..|points| - 1], rules)
      case Err(e) => Err(e)
      case Ok(most) =>
        match SimulateTrade(t, p.sl, p.rr, rules)
        case Err(e) => Err(e)
        case Ok(r) => Ok(Push(most, KeyOf(p), r))
  }

  function TryTrades(trades: seq<Trade>, points: seq<Point>, rules: Rules): Result<Results, SimError> {
    if trades == [] then Ok(map[])
    else
      match TryTrades(trades[..|trades| - 1], points, rules)
      case Err(e) => Err(e)
      case Ok(most) => TryPoints(most, trades[|trades| - 1], points, rules)
  }

  // ---- Aggregation ----

  datatype Combo = Combo(sl: real, rr: real, totalPnl: real, winCount: nat, lossCount: nat, tradeCount: nat,
                         winRate: real, slTriggerRate: real, tpTriggerRate: real, manualCloseRate: real,
                           slTriggerCount: nat, tpTriggerCount: nat, manualCloseCount: nat)

  function Total(results: seq<Simulated>): real {
    if results == [] then 0.0 else Total(results[..|results| - 1]) + results[|results| - 1].profit
  }

  datatype Mark = Won | Lost | Stopped | Taken | Closed

  predicate Bears(r: Simulated, mark: Mark) {
    match mark
    case Won => r.profit > 0.0
    case Lost => r.profit < 0.0
    case Stopped => r.slTriggered
    case Taken => r.tpTriggered
    case Closed => r.manualClose
  }

  function Count(results: seq<Simulated>, mark: Mark): nat {
    if results == [] then 0
    else Count(results[..|results| - 1], mark) + (if Bears(results[|results| - 1], mark) then 1 else 0)
  }

  function Rate(count: nat, total: nat): real { if total > 0 then Fixed4(count as real / total as real) else 0.0 }

  function Aggregate(p: Point, results: seq<Simulated>): Combo {
    var n := |results|;
    Combo(p.sl, p.rr, Fixed4(Total(results)), Count(results, Won), Count(results, Lost), n,
          Rate(Count(results, Won), n),
          Rate(Count(results, Stopped), n), Rate(Count(results, Taken), n), Rate(Count(results, Closed), n),
          Count(results, Stopped), Count(results, Taken), Count(results, Closed))
  }

  function Combos(points: seq<Point>, m: Results): seq<Combo> {
    if points == [] then []
    else
      var p := points[|points| - 1];
      Combos(points[..|points| - 1], m) + [Aggregate(p, Collected(m, KeyOf(p)))]
  }

  method AggregateOne(p: Point, results: seq<Simulated>) returns (c: Combo)
    ensures c == Aggregate(p, results)
  {
    var total, wins, losses, stops, takes, closes := 0.0, 0, 0, 0, 0, 0;
    for i := 0 to |results|
      invariant total == Total(results[..i])
      invariant wins == Count(results[..i], Won) && losses == Count(results[..i], Lost)
      invariant stops == Count(results[..i], Stopped) && takes == Count(results[..i], Taken)
      invariant closes == Count(results[..i], Closed)
    {
      var r := results[i];
      assert results[..i + 1][..i] == results[..i];
      total := total + r.profit;
      if r.profit > 0.0 {
        wins := wins + 1;
      } else if r.profit < 0.0 {
        losses := losses + 1;
      }
      stops := stops + if r.slTriggered then 1 else 0;
      takes := takes + if r.tpTriggered then 1 else 0;
      closes := closes + if r.manualClose then 1 else 0;
    }
    assert results[..|results|] == results;
    var n := |results|;
    c := Combo(p.sl, p.rr, Fixed4(total), wins, losses, n, Rate(wins, n), Rate(stops, n), Rate(takes, n),
               Rate(closes, n), stops, takes, closes);
  }

  lemma {:induction false} CombosConcat(a: seq<Point>, b: seq<Point>, m: Results)
    ensures Combos(a + b, m) == Combos(a, m) + Combos(b, m)
  {
    if b == [] {
      assert a + b == a;
    } else {
      CombosConcat(a, b[..|b| - 1], m);
      assert (a + b)[..|a + b| - 1] == a + b[..|b| - 1];
    }
  }

  method AggregateRow(sl: real, rrs: seq<real>, m: Results) returns (combos: seq<Combo>)
    ensures combos == Combos(Row(sl, rrs), m)
  {
    combos := [];
    for j := 0 to |rrs|
      invariant combos == Combos(Row(sl, rrs)[..j], m)
    {
      var p := Point(sl, rrs[j]);
      assert Row(sl, rrs)[..j + 1][..j] == Row(sl, rrs)[..j];
      var c := AggregateOne(p, Collected(m, KeyOf(p)));
      combos := combos + [c];
    }
    assert Row(sl, rrs)[..|rrs|] == Row(sl, rrs);
  }

  method AggregateResults(sls: seq<real>, rrs: seq<real>, m: Results) returns (combos: seq<Combo>)
    ensures combos == Combos(Points(sls, rrs), m)
  {
    combos := [];
    for i := 0 to |sls|
      invariant combos == Combos(Points(sls[..i], rrs), m)
    {
      var row := AggregateRow(sls[i], rrs, m);
      CombosConcat(Points(sls[..i], rrs), Row(sls[i], rrs), m);
      assert sls[..i + 1][..i] == sls[..i];
      combos := combos + row;
    }
    assert sls[..|sls|] == sls;
  }

  // ---- The sweep ----

  function Then(r: Result<Results, SimError>, t: Trade, points: seq<Point>, rules: Rules): Result<Results, SimError> {
    match r
    case Err(e) => Err(e)
    case Ok(m) => TryPoints(m, t, points, rules)
  }

  lemma {:induction false} TryConcat(m: Results, t: Trade, a: seq<Point>, b: seq<Point>, rules: Rules)
    ensures TryPoints(m, t, a + b, rules) == Then(TryPoints(m, t, a, rules), t, b, rules)
  {
    if b == [] {
      assert a + b == a;
    } else {
      TryConcat(m, t, a, b[..|b| - 1], rules);
      assert (a + b)[..|a + b| - 1] == a + b[..|b| - 1];
    }
  }

  method SimulateRow(t: Trade, sl: real, rrs: seq<real>, rules: Rules, m: Results)
    returns (r: Result<Results, SimError>)
    ensures r == TryPoints(m, t, Row(sl, rrs), rules)
  {
    var results := m;
    for j := 0 to |rrs|
      invariant TryPoints(m, t, Row(sl, rrs)[..j], rules) == Ok(results)
    {
      var p := Point(sl, rrs[j]);
      assert Row(sl, rrs)[..j + 1][..j] == Row(sl, rrs)[..j];
      var result := SimulateTrade(t, p.sl, p.rr, rules);
      if result.Err? {
        TryConcat(m, t, Row(sl, rrs)[..j + 1], Row(sl, rrs)[j + 1..], rules);
        assert Row(sl, rrs)[..j + 1] + Row(sl, rrs)[j + 1..] == Row(sl, rrs);
        return Err(result.error);
      }
      results := Push(results, KeyOf(p), result.value);
    }
    assert Row(sl, rrs)[..|rrs|] == Row(sl, rrs);
    return Ok(results);
  }

  method SimulatePoints(t: Trade, sls: seq<real>, rrs: seq<real>, rules: Rules, m: Results)
    returns (r: Result<Results, SimError>)
    ensures r == TryPoints(m, t, Points(sls, rrs), rules)
  {
    var results := m;
    for i := 0 to |sls|
      invariant TryPoints(m, t, Points(sls[..i], rrs), rules) == Ok(results)
    {
      r := SimulateRow(t, sls[i], rrs, rules, results);
      TryConcat(m, t, Points(sls[..i], rrs), Row(sls[i], rrs), rules);
      assert sls[..i + 1][..i] == sls[..i];
      if r.Err? {
        PointsSplit(sls, rrs, i + 1);
        TryConcat(m, t, Points(sls[..i + 1], rrs), Points(sls[i + 1..], rrs), rules);
        return;
      }
      results := r.value;
    }
    assert sls[..|sls|] == sls;
    r := Ok(results);
  }

  lemma {:induction false} PointsSplit(sls: seq<real>, rrs: seq<real>, n: nat)
    requires n <= |sls|
    ensures Points(sls, rrs) == Points(sls[..n], rrs) + Points(sls[n..], rrs)
    decreases |sls|
  {
    if n == |sls| {
      assert sls[..n] == sls && sls[n..] == [];
    } else {
      var last := |sls| - 1;
      PointsSplit(sls[..last], rrs, n);
      assert sls[..last][..n] == sls[..n] && sls[..last][n..] == sls[n..][..last - n];
    }
  }

  datatype Direction = All | Only(side: Side)

  datatype Config = Config(slMin: real, slMax: real, slStep: real, rrMin: real, rrMax: real, rrStep: real,
                           direction: Direction, rules: Rules)

  function Selected(trades: seq<Trade>, direction: Direction): seq<Trade> {
    if trades == [] then []
    else
      Selected(trades[..|trades| - 1], direction)
      + (if direction.All? || trades[|trades| - 1].side == direction.side then [trades[|trades| - 1]] else [])
  }

  predicate GridsEnd(config: Config) {
    Ends(config.slMin, config.slMax, config.slStep) && Ends(config.rrMin, config.rrMax, config.rrStep)
  }

  function PointsOf(config: Config): seq<Point>
    requires GridsEnd(config)
  {
    Points(Grid(config.slMin, config.slMax, config.slStep), Grid(config.rrMin, config.rrMax, config.rrStep))
  }

  function Swept(trades: seq<Trade>, config: Config): Result<seq<Combo>, SimError>
    requires GridsEnd(config)
  {
    var chosen, points := Selected(trades, config.direction), PointsOf(config);
    if chosen == [] then Ok([])
    else
      match TryTrades(chosen, points, config.rules)
      case Err(e) => Err(e)
      case Ok(results) => Ok(Combos(points, results))
  }

  lemma {:induction false} ErrorEnds(trades: seq<Trade>, n: nat, points: seq<Point>, rules: Rules)
    requires n <= |trades| && TryTrades(trades[..n], points, rules).Err?
    ensures TryTrades(trades, points, rules) == TryTrades(trades[..n], points, rules)
    decreases |trades|
  {
    if n == |trades| {
      assert trades[..n] == trades;
    } else {
      assert trades[..|trades| - 1][..n] == trades[..n];
      ErrorEnds(trades[..|trades| - 1], n, points, rules);
    }
  }

  /** The combinations a sweep reports. */
  method RunParameterSweep(trades: seq<Trade>, config: Config) returns (r: Result<seq<Combo>, SimError>)
    requires GridsEnd(config)
    ensures r == Swept(trades, config)
  {
    var chosen := Selected(trades, config.direction);
    var sls := BuildValues(config.slMin, config.slMax, config.slStep);
    var rrs := BuildValues(config.rrMin, config.rrMax, config.rrStep);
    if chosen == [] {
      return Ok([]);
    }
    var results: Results := map[];
    for i := 0 to |chosen|
      invariant TryTrades(chosen[..i], Points(sls, rrs), config.rules) == Ok(results)
    {
      assert chosen[..i + 1][..i] == chosen[..i];
      var added := SimulatePoints(chosen[i], sls, rrs, config.rules, results);
      if added.Err? {
        ErrorEnds(chosen, i + 1, Points(sls, rrs), config.rules);
        return Err(added.error);
      }
      results := added.value;
    }
    assert chosen[..|chosen|] == chosen;
    var combos := AggregateResults(sls, rrs, results);
    return Ok(combos);
  }
}
