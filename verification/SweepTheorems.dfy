/** Collecting by key against summing up each combination on its own. */
module SweepTheorems {
  import opened Simulation
  import opened Sweep

  /** What one combination comes to when every trade is simulated under it directly. */
  function Direct(trades: seq<Trade>, p: Point, rules: Rules): seq<Simulated>
    requires Valid(p.sl, p.rr)
  {
    if trades == [] then [] else Direct(trades[..|trades| - 1], p, rules) + [Outcome(trades[|trades| - 1], p, rules)]
  }

  predicate DistinctKeys(points: seq<Point>) {
    forall i, j | 0 <= i < j < |points| :: KeyOf(points[i]) != KeyOf(points[j])
  }

  // ---- What ends up under a key ----

  function Hits(points: seq<Point>, t: Trade, rules: Rules, key: Key): seq<Simulated>
    requires AllValid(points)
  {
    if points == [] then []
    else
      var p := points[|points| - 1];
      assert p in points && AllValid(points[..|points| - 1]);
      Hits(points[..|points| - 1], t, rules, key) + (if KeyOf(p) == key then [Outcome(t, p, rules)] else [])
  }

  function AllHits(trades: seq<Trade>, points: seq<Point>, rules: Rules, key: Key): seq<Simulated>
    requires AllValid(points)
  {
    if trades == [] then []
    else AllHits(trades[..|trades| - 1], points, rules, key) + Hits(points, trades[|trades| - 1], rules, key)
  }

  function Multiplicity(points: seq<Point>, key: Key): nat {
    if points == [] then 0
    else Multiplicity(points[..|points| - 1], key) + (if KeyOf(points[|points| - 1]) == key then 1 else 0)
  }

  lemma {:induction false} TriedPoints(m: Results, t: Trade, points: seq<Point>, rules: Rules, key: Key)
    requires TryPoints(m, t, points, rules).Ok?
    ensures AllValid(points)
    ensures Collected(TryPoints(m, t, points, rules).value, key) == Collected(m, key) + Hits(points, t, rules, key)
  {
    if points != [] {
      var p := points[|points| - 1];
      TriedPoints(m, t, points[..|points| - 1], rules, key);
      assert points == points[..|points| - 1] + [p];
    }
  }

  lemma {:induction false} TriedTrades(trades: seq<Trade>, points: seq<Point>, rules: Rules, key: Key)
    requires trades != [] && TryTrades(trades, points, rules).Ok?
    ensures AllValid(points)
    ensures Collected(TryTrades(trades, points, rules).value, key) == AllHits(trades, points, rules, key)
  {
    var most := trades[..|trades| - 1];
    var before := TryTrades(most, points, rules);
    TriedPoints(before.value, trades[|trades| - 1], points, rules, key);
    if most != [] {
      TriedTrades(most, points, rules, key);
    } else {
      assert AllHits(most, points, rules, key) == [];
    }
  }

  lemma {:induction false} HitsSize(points: seq<Point>, t: Trade, rules: Rules, key: Key)
    requires AllValid(points)
    ensures |Hits(points, t, rules, key)| == Multiplicity(points, key)
  {
    if points != [] {
      assert AllValid(points[..|points| - 1]);
      HitsSize(points[..|points| - 1], t, rules, key);
    }
  }

  lemma {:induction false} AllHitsSize(trades: seq<Trade>, points: seq<Point>, rules: Rules, key: Key)
    requires AllValid(points)
    ensures |AllHits(trades, points, rules, key)| == |trades| * Multiplicity(points, key)
  {
    if trades != [] {
      AllHitsSize(trades[..|trades| - 1], points, rules, key);
      HitsSize(points, trades[|trades| - 1], rules, key);
      assert (|trades| - 1) * Multiplicity(points, key) + Multiplicity(points, key)
               == |trades| * Multiplicity(points, key);
    }
  }

  lemma {:induction false} NoHits(points: seq<Point>, t: Trade, rules: Rules, key: Key)
    requires AllValid(points) && forall i | 0 <= i < |points| :: KeyOf(points[i]) != key
    ensures Hits(points, t, rules, key) == []
  {
    if points != [] {
      assert AllValid(points[..|points| - 1]);
      NoHits(points[..|points| - 1], t, rules, key);
    }
  }

  lemma {:induction false} OneHit(points: seq<Point>, t: Trade, rules: Rules, i: nat)
    requires AllValid(points) && DistinctKeys(points) && i < |points|
    ensures Hits(points, t, rules, KeyOf(points[i])) == [Outcome(t, points[i], rules)]
  {
    var most := points[..|points| - 1];
    assert AllValid(most);
    if i == |points| - 1 {
      NoHits(most, t, rules, KeyOf(points[i]));
    } else {
      OneHit(most, t, rules, i);
    }
  }

  lemma {:induction false} HitsAreDirect(trades: seq<Trade>, points: seq<Point>, rules: Rules, i: nat)
    requires AllValid(points) && DistinctKeys(points) && i < |points|
    ensures AllHits(trades, points, rules, KeyOf(points[i])) == Direct(trades, points[i], rules)
  {
    if trades != [] {
      HitsAreDirect(trades[..|trades| - 1], points, rules, i);
      OneHit(points, trades[|trades| - 1], rules, i);
    }
  }

  lemma {:induction false} MultiplicityAtLeast(points: seq<Point>, i: nat, key: Key)
    requires i < |points| && KeyOf(points[i]) == key
    ensures Multiplicity(points, key) >= 1
  {
    if i < |points| - 1 {
      MultiplicityAtLeast(points[..|points| - 1], i, key);
    }
  }

  lemma {:induction false} MultiplicityTwo(points: seq<Point>, i: nat, j: nat)
    requires i < j < |points| && KeyOf(points[i]) == KeyOf(points[j])
    ensures Multiplicity(points, KeyOf(points[i])) >= 2
  {
    if j == |points| - 1 {
      MultiplicityAtLeast(points[..|points| - 1], i, KeyOf(points[i]));
    } else {
      MultiplicityTwo(points[..|points| - 1], i, j);
    }
  }

  lemma {:induction false} DirectSize(trades: seq<Trade>, p: Point, rules: Rules)
    requires Valid(p.sl, p.rr)
    ensures |Direct(trades, p, rules)| == |trades|
  {
    if trades != [] {
      DirectSize(trades[..|trades| - 1], p, rules);
    }
  }

  lemma {:induction false} CombosAt(points: seq<Point>, m: Results, i: nat)
    requires i < |points|
    ensures |Combos(points, m)| == |points|
    ensures Combos(points, m)[i] == Aggregate(points[i], Collected(m, KeyOf(points[i])))
  {
    if i < |points| - 1 {
      CombosAt(points[..|points| - 1], m, i);
    } else if i > 0 {
      CombosAt(points[..|points| - 1], m, i - 1);
    }
  }

  ghost predicate IsDirect(combos: seq<Combo>, trades: seq<Trade>, points: seq<Point>, rules: Rules)
    requires AllValid(points)
  {
    |combos| == |points| && forall i | 0 <= i < |points| ::
      combos[i] == Aggregate(points[i], Direct(trades, points[i], rules))
  }

  lemma SizesGiveAway(trades: seq<Trade>, points: seq<Point>, rules: Rules, m: Results, i: nat, j: nat)
    requires trades != [] && AllValid(points) && i < j < |points| && KeyOf(points[i]) == KeyOf(points[j])
    requires |Combos(points, m)| == |points|
    requires Collected(m, KeyOf(points[i])) == AllHits(trades, points, rules, KeyOf(points[i]))
    ensures Combos(points, m)[i] != Aggregate(points[i], Direct(trades, points[i], rules))
  {
    var key := KeyOf(points[i]);
    CombosAt(points, m, i);
    MultiplicityTwo(points, i, j);
    AllHitsSize(trades, points, rules, key);
    DirectSize(trades, points[i], rules);
    TwiceIsMore(|trades|, Multiplicity(points, key));
  }

  lemma TwiceIsMore(n: nat, k: nat)
    requires n > 0 && k >= 2
    ensures n * k > n
  {
    assert n * (k - 1) > 0;
    assert n * k == n * (k - 1) + n;
  }

  /** A sweep over at least one trade reports for every combination what simulating it directly comes to, exactly when
      no two combinations share a key; otherwise the shared results are counted more than once. */
  lemma SweepIsDirectIff(trades: seq<Trade>, config: Config)
    requires GridsEnd(config) && Selected(trades, config.direction) != [] && Swept(trades, config).Ok?
    ensures AllValid(PointsOf(config))
    ensures IsDirect(Swept(trades, config).value, Selected(trades, config.direction), PointsOf(config), config.rules)
        <==> DistinctKeys(PointsOf(config))
  {
    var chosen, points, rules := Selected(trades, config.direction), PointsOf(config), config.rules;
    TriedTrades(chosen, points, rules, Key(0, 0));
    KeysDecide(chosen, points, rules);
  }

  lemma KeysDecide(trades: seq<Trade>, points: seq<Point>, rules: Rules)
    requires trades != [] && AllValid(points) && TryTrades(trades, points, rules).Ok?
    ensures IsDirect(Combos(points, TryTrades(trades, points, rules).value), trades, points, rules)
            <==> DistinctKeys(points)
  {
    var m := TryTrades(trades, points, rules).value;
    forall i | 0 <= i < |points|
      ensures |Combos(points, m)| == |points|
      ensures Collected(m, KeyOf(points[i])) == AllHits(trades, points, rules, KeyOf(points[i]))
      ensures Combos(points, m)[i] == Aggregate(points[i], Collected(m, KeyOf(points[i])))
    {
      CombosAt(points, m, i);
      TriedTrades(trades, points, rules, KeyOf(points[i]));
    }
    if DistinctKeys(points) {
      forall i | 0 <= i < |points| ensures Combos(points, m)[i]
        == Aggregate(points[i], Direct(trades, points[i], rules)) {
        HitsAreDirect(trades, points, rules, i);
      }
    } else {
      var i, j :| 0 <= i < j < |points| && KeyOf(points[i]) == KeyOf(points[j]);
      SizesGiveAway(trades, points, rules, m, i, j);
    }
  }

  // ---- Coarse steps ----

  lemma UnitsOfRounded(v: real)
    ensures Units(Rounded(v)) == (v * 10000.0 + 0.5).Floor
  {
    var n := (v * 10000.0 + 0.5).Floor;
    assert Rounded(v) * 10000.0 == n as real;
    if n >= 0 {
      assert (n as real + 0.5).Floor == n;
    } else {
      assert -Rounded(v) * 10000.0 == (-n) as real;
      assert ((-n) as real + 0.5).Floor == -n;
    }
  }

  predicate OnUnits(values: seq<real>) {
    forall i | 0 <= i < |values| :: Fixed4(values[i]) == values[i]
  }

  lemma GridOnUnits(min: real, max: real, step: real)
    requires step > 0.0
    ensures OnUnits(Grid(min, max, step))
  {
    var g := Grid(min, max, step);
    forall i | 0 <= i < |g| ensures Fixed4(g[i]) == g[i] {
      UnitsOfRounded(min + i as real * step);
      assert g[i] == GridValue(min, step, i);
    }
  }

  lemma {:induction false} PointsMembers(sls: seq<real>, rrs: seq<real>, k: nat)
    requires k < |Points(sls, rrs)|
    ensures Points(sls, rrs)[k].sl in sls && Points(sls, rrs)[k].rr in rrs
  {
    var most := Points(sls[..|sls| - 1], rrs);
    if k < |most| {
      PointsMembers(sls[..|sls| - 1], rrs, k);
      assert sls == sls[..|sls| - 1] + [sls[|sls| - 1]];
    }
  }

  lemma KeysApart(p: Point, q: Point)
    requires p != q && Fixed4(p.sl) == p.sl && Fixed4(q.sl) == q.sl && Fixed4(p.rr) == p.rr && Fixed4(q.rr) == q.rr
    ensures KeyOf(p) != KeyOf(q)
  {}

  lemma {:induction false} PointsDistinct(sls: seq<real>, rrs: seq<real>)
    requires NoRepeats(sls) && NoRepeats(rrs)
    ensures forall i, j | 0 <= i < j < |Points(sls, rrs)| :: Points(sls, rrs)[i] != Points(sls, rrs)[j]
  {
    if sls != [] {
      var last := |sls| - 1;
      var most := Points(sls[..last], rrs);
      PointsDistinct(sls[..last], rrs);
      forall i | 0 <= i < |most| ensures most[i].sl != sls[last] {
        PointsMembers(sls[..last], rrs, i);
      }
    }
  }

  /** Steps of a ten-thousandth or more give every combination a key of its own, so there the sweep is always direct. */
  lemma CoarseSweepIsDirect(trades: seq<Trade>, config: Config)
    requires config.slStep >= 0.0001 && config.rrStep >= 0.0001
    requires Selected(trades, config.direction) != [] && Swept(trades, config).Ok?
    ensures AllValid(PointsOf(config))
    ensures IsDirect(Swept(trades, config).value, Selected(trades, config.direction), PointsOf(config), config.rules)
  {
    SweepIsDirectIff(trades, config);
    CoarseKeys(config);
  }

  lemma CoarseKeys(config: Config)
    requires config.slStep >= 0.0001 && config.rrStep >= 0.0001
    ensures DistinctKeys(PointsOf(config))
  {
    var sls, rrs := Grid(config.slMin, config.slMax, config.slStep), Grid(config.rrMin, config.rrMax, config.rrStep);
    CoarseGridsDoNotRepeat(config.slMin, config.slMax, config.slStep);
    CoarseGridsDoNotRepeat(config.rrMin, config.rrMax, config.rrStep);
    GridOnUnits(config.slMin, config.slMax, config.slStep);
    GridOnUnits(config.rrMin, config.rrMax, config.rrStep);
    var points := Points(sls, rrs);
    PointsDistinct(sls, rrs);
    forall i, j | 0 <= i < j < |points| ensures KeyOf(points[i]) != KeyOf(points[j]) {
      PointsMembers(sls, rrs, i);
      PointsMembers(sls, rrs, j);
      KeysApart(points[i], points[j]);
    }
  }

  // ---- Trigger counts over the report ----

  lemma {:induction false} CountsAgree(trades: seq<Trade>, p: Point, rules: Rules)
    requires Valid(p.sl, p.rr)
    ensures Count(Direct(trades, p, rules), Stopped) == SlCount(trades, p.sl, p.rr, rules)
    ensures Count(Direct(trades, p, rules), Taken) == TpCount(trades, p.sl, p.rr, rules)
  {
    if trades != [] {
      CountsAgree(trades[..|trades| - 1], p, rules);
      assert Direct(trades, p, rules)[..|Direct(trades, p, rules)| - 1] == Direct(trades[..|trades| - 1], p, rules);
    }
  }

  /** In the report of a sweep with coarse steps, stop-loss counts never rise with the distance and do not depend on the
      ratio, and for one distance take-profit counts never rise with the ratio. */
  lemma ReportedCountsFall(trades: seq<Trade>, config: Config, i: nat, j: nat)
    requires config.slStep >= 0.0001 && config.rrStep >= 0.0001
    requires Selected(trades, config.direction) != [] && Swept(trades, config).Ok?
    requires i < |Swept(trades, config).value| && j < |Swept(trades, config).value|
    ensures var a, b := Swept(trades, config).value[i], Swept(trades, config).value[j];
            && (a.sl <= b.sl ==> b.slTriggerCount <= a.slTriggerCount)
            && (a.sl == b.sl ==> b.slTriggerCount == a.slTriggerCount)
            && (a.sl == b.sl && a.rr <= b.rr ==> b.tpTriggerCount <= a.tpTriggerCount)
  {
    CoarseSweepIsDirect(trades, config);
    var chosen, points, rules := Selected(trades, config.direction), PointsOf(config), config.rules;
    var p, q := points[i], points[j];
    assert p in points && q in points;
    CountsAgree(chosen, p, rules);
    CountsAgree(chosen, q, rules);
    if p.sl <= q.sl {
      SlCountFalls(chosen, p.sl, q.sl, p.rr, q.rr, rules, rules);
    }
    if p.sl == q.sl && p.rr <= q.rr {
      TpCountFalls(chosen, p.sl, p.rr, q.rr, rules);
    }
  }

  // ---- A grid too fine for its keys ----

  lemma {:induction false} ValidPointsSucceed(m: Results, t: Trade, points: seq<Point>, rules: Rules)
    requires AllValid(points)
    ensures TryPoints(m, t, points, rules).Ok?
  {
    if points != [] {
      ValidPointsSucceed(m, t, points[..|points| - 1], rules);
      assert points[|points| - 1] in points;
    }
  }

  // Distances 1 and 1.00001, which share the key of 1.
  function Fine(rules: Rules): Config { Config(1.0, 1.00001, 0.00001, 1.0, 1.0, 1.0, All, rules) }

  lemma FinePoints(rules: Rules)
    ensures PointsOf(Fine(rules)) == [Point(1.0, 1.0), Point(1.0, 1.0)]
  {
    var sls, rrs := Grid(1.0, 1.00001, 0.00001), Grid(1.0, 1.0, 1.0);
    WithinSteps(1.0, 1.00001, 0.00001, 1);
    WithinSteps(1.0, 1.00001, 0.00001, 2);
    WithinSteps(1.0, 1.0, 1.0, 0);
    WithinSteps(1.0, 1.0, 1.0, 1);
    assert Rounded(1.0) == 1.0 && Rounded(1.00001) == 1.0 by {
      assert (10000.5).Floor == 10000 && (10000.6).Floor == 10000;
    }
    assert sls == [1.0, 1.0] && rrs == [1.0];
    assert sls[..1] == [1.0] && sls[..1][..0] == [];
    assert Points(sls[..1][..0], rrs) == [] && Row(1.0, rrs) == [Point(1.0, 1.0)];
    assert Points(sls[..1], rrs) == [] + [Point(1.0, 1.0)];
  }

  /** For any trade, the sweep over a grid of this fineness runs and does not report the direct simulation. */
  lemma FineSweepIsNotDirect(t: Trade, rules: Rules)
    ensures var config := Fine(rules);
            && Selected([t], All) == [t] && Swept([t], config).Ok? && AllValid(PointsOf(config))
            && !IsDirect(Swept([t], config).value, [t], PointsOf(config), rules)
  {
    var config := Fine(rules);
    FinePoints(rules);
    assert [t][..0] == [];
    assert Selected([t], All) == [] + [t];
    ValidPointsSucceed(map[], t, PointsOf(config), rules);
    assert TryTrades([t], PointsOf(config), rules) == TryPoints(map[], t, PointsOf(config), rules);
    SweepIsDirectIff([t], config);
  }
}
