/** Stability zones: runs of neighbouring distances in the order of their volatility. */
module Zones {
  import opened Simulation
  import opened Sweep

  /** Mean, spread and trigger rate of the combinations of one distance. */
  datatype Stats = Stats(sl: real, mean: real, stddev: real, rate: real)

  datatype Zone = Zone(slStart: real, slEnd: real, volatility: real, avgPnl: real, avgRate: real)

  // ---- Statistics per distance ----

  /** One group per distance, in the order in which the distances first appear. */
  function AddToGroup(groups: seq<(real, seq<Combo>)>, c: Combo): seq<(real, seq<Combo>)> {
    if groups == [] then [(c.sl, [c])]
    else if groups[0].0 == c.sl then [(c.sl, groups[0].1 + [c])] + groups[1..]
    else [groups[0]] + AddToGroup(groups[1..], c)
  }

  function Groups(combos: seq<Combo>): seq<(real, seq<Combo>)> {
    if combos == [] then [] else AddToGroup(Groups(combos[..|combos| - 1]), combos[|combos| - 1])
  }

  function OfDistance(combos: seq<Combo>, sl: real): seq<Combo> {
    if combos == [] then []
    else OfDistance(combos[..|combos| - 1], sl) + (if combos[|combos| - 1].sl == sl then [combos[|combos| - 1]] else [])
  }

  predicate DistinctGroups(groups: seq<(real, seq<Combo>)>) {
    forall i, j | 0 <= i < j < |groups| :: groups[i].0 != groups[j].0
  }

  function GroupAt(groups: seq<(real, seq<Combo>)>, sl: real): seq<Combo> {
    if groups == [] then [] else if groups[0].0 == sl then groups[0].1 else GroupAt(groups[1..], sl)
  }

  lemma {:induction false} AddToGroupMeaning(groups: seq<(real, seq<Combo>)>, c: Combo, sl: real)
    requires DistinctGroups(groups)
    ensures DistinctGroups(AddToGroup(groups, c))
    ensures forall g | g in AddToGroup(groups, c) :: g.0 == c.sl || exists h :: h in groups && h.0 == g.0
    ensures GroupAt(AddToGroup(groups, c), sl) == GroupAt(groups, sl) + (if c.sl == sl then [c] else [])
  {
    if groups != [] && groups[0].0 != c.sl {
      AddToGroupMeaning(groups[1..], c, sl);
      var more := AddToGroup(groups[1..], c);
      assert groups == [groups[0]] + groups[1..];
      forall j | 0 <= j < |more| ensures more[j].0 != groups[0].0 {
        assert more[j] in more;
        if more[j].0 != c.sl {
          var h :| h in groups[1..] && h.0 == more[j].0;
        }
      }
    }
  }

  /** Grouping gathers, for each distance, exactly its combinations in their order. */
  lemma {:induction false} GroupsMeaning(combos: seq<Combo>, sl: real)
    ensures DistinctGroups(Groups(combos)) && GroupAt(Groups(combos), sl) == OfDistance(combos, sl)
  {
    if combos != [] {
      GroupsMeaning(combos[..|combos| - 1], sl);
      AddToGroupMeaning(Groups(combos[..|combos| - 1]), combos[|combos| - 1], sl);
    }
  }

  method GroupByDistance(combos: seq<Combo>) returns (groups: seq<(real, seq<Combo>)>)
    ensures groups == Groups(combos)
  {
    groups := [];
    for i := 0 to |combos|
      invariant groups == Groups(combos[..i])
    {
      assert combos[..i + 1][..i] == combos[..i];
      groups := AddToGroup(groups, combos[i]);
    }
    assert combos[..|combos|] == combos;
  }

  function SumPnl(group: seq<Combo>): real {
    if group == [] then 0.0 else SumPnl(group[..|group| - 1]) + group[|group| - 1].totalPnl
  }

  function SumSquares(group: seq<Combo>, mean: real): real {
    if group == [] then 0.0
    else
      var d := group[|group| - 1].totalPnl - mean;
      SumSquares(group[..|group| - 1], mean) + d * d
  }

  function SumRate(group: seq<Combo>): real {
    if group == [] then 0.0 else SumRate(group[..|group| - 1]) + group[|group| - 1].slTriggerRate
  }

  /** The square root is a parameter: nothing below depends on what it is. */
  function StatsOf(group: (real, seq<Combo>), root: real -> real): Stats
    requires group.1 != []
  {
    var n := |group.1| as real;
    var mean := SumPnl(group.1) / n;
    Stats(group.0, Fixed4(mean), Fixed4(root(SumSquares(group.1, mean) / n)), Fixed4(SumRate(group.1) / n))
  }

  predicate Filled(groups: seq<(real, seq<Combo>)>) { forall i | 0 <= i < |groups| :: groups[i].1 != [] }

  lemma {:induction false} AddKeepsFilled(groups: seq<(real, seq<Combo>)>, c: Combo)
    requires Filled(groups)
    ensures Filled(AddToGroup(groups, c))
  {
    if groups != [] && groups[0].0 != c.sl {
      AddKeepsFilled(groups[1..], c);
    }
  }

  lemma {:induction false} GroupsFilled(combos: seq<Combo>)
    ensures Filled(Groups(combos))
  {
    if combos != [] {
      GroupsFilled(combos[..|combos| - 1]);
      AddKeepsFilled(Groups(combos[..|combos| - 1]), combos[|combos| - 1]);
    }
  }

  function AllStats(groups: seq<(real, seq<Combo>)>, root: real -> real): seq<Stats>
    requires Filled(groups)
  {
    if groups == [] then [] else [StatsOf(groups[0], root)] + AllStats(groups[1..], root)
  }

  // ---- Order of volatility ----

  predicate Ordered(s: seq<Stats>) { forall i, j | 0 <= i < j < |s| :: s[i].stddev <= s[j].stddev }

  function InsertStats(x: Stats, s: seq<Stats>): seq<Stats> {
    if s == [] || x.stddev <= s[0].stddev then [x] + s else [s[0]] + InsertStats(x, s[1..])
  }

  // Equal volatilities keep their order.
  function ByVolatility(s: seq<Stats>): seq<Stats> {
    if s == [] then [] else InsertStats(s[0], ByVolatility(s[1..]))
  }

  lemma {:induction false} InsertStatsMembers(x: Stats, s: seq<Stats>)
    ensures multiset(InsertStats(x, s)) == multiset([x] + s)
  {
    if s != [] && x.stddev > s[0].stddev {
      assert s == [s[0]] + s[1..];
      InsertStatsMembers(x, s[1..]);
    }
  }

  lemma {:induction false} InsertStatsOrdered(x: Stats, s: seq<Stats>)
    requires Ordered(s)
    ensures Ordered(InsertStats(x, s))
  {
    if s != [] && x.stddev > s[0].stddev {
      InsertStatsOrdered(x, s[1..]);
      InsertStatsMembers(x, s[1..]);
      var more := InsertStats(x, s[1..]);
      forall j | 0 <= j < |more| ensures s[0].stddev <= more[j].stddev {
        assert more[j] in multiset(more);
        assert more[j] == x || more[j] in s[1..];
      }
    }
  }

  lemma {:induction false} ByVolatilityMeaning(s: seq<Stats>)
    ensures Ordered(ByVolatility(s)) && multiset(ByVolatility(s)) == multiset(s)
  {
    if s != [] {
      ByVolatilityMeaning(s[1..]);
      InsertStatsOrdered(s[0], ByVolatility(s[1..]));
      InsertStatsMembers(s[0], ByVolatility(s[1..]));
      assert s == [s[0]] + s[1..];
    }
  }

  // ---- Segments ----

  predicate Near(a: Stats, b: Stats) { -1.0 <= a.sl - b.sl <= 1.0 }

  // Adds a row to the open segment, or opens a new one if it is not near.
  function Grow(parts: seq<seq<Stats>>, x: Stats): seq<seq<Stats>> {
    if parts != [] && Continues(parts[|parts| - 1], x) then parts[..|parts| - 1] + [parts[|parts| - 1] + [x]]
    else parts + [[x]]
  }

  predicate Continues(open: seq<Stats>, x: Stats) { open != [] && Near(x, open[|open| - 1]) }

  /** Cuts the list wherever two neighbours are more than one point apart. */
  function Segments(s: seq<Stats>): seq<seq<Stats>> {
    if s == [] then [] else Grow(Segments(s[..|s| - 1]), s[|s| - 1])
  }

  function Joined(parts: seq<seq<Stats>>): seq<Stats> {
    if parts == [] then [] else Joined(parts[..|parts| - 1]) + parts[|parts| - 1]
  }

  datatype Field = Volatility | Pnl | TriggerRate

  function Value(s: Stats, f: Field): real {
    match f case Volatility => s.stddev case Pnl => s.mean case TriggerRate => s.rate
  }

  function Sum(s: seq<Stats>, f: Field): real {
    if s == [] then 0.0 else Sum(s[..|s| - 1], f) + Value(s[|s| - 1], f)
  }

  function Average(s: seq<Stats>, f: Field): real
    requires s != []
  {
    Sum(s, f) / |s| as real
  }

  function ZoneOf(s: seq<Stats>): Zone
    requires s != []
  {
    Zone(s[0].sl, s[|s| - 1].sl, Fixed4(Average(s, Volatility)), Fixed4(Average(s, Pnl)),
         Fixed4(Average(s, TriggerRate)))
  }

  predicate NonEmpty(parts: seq<seq<Stats>>) { forall i | 0 <= i < |parts| :: parts[i] != [] }

  function ZonesOf(parts: seq<seq<Stats>>): seq<Zone>
    requires NonEmpty(parts)
  {
    if parts == [] then [] else ZonesOf(parts[..|parts| - 1]) + [ZoneOf(parts[|parts| - 1])]
  }

  predicate EndsIn(parts: seq<seq<Stats>>, x: Stats) {
    parts != [] && parts[|parts| - 1] != [] && parts[|parts| - 1][|parts[|parts| - 1]| - 1] == x
  }

  lemma GrowJoins(parts: seq<seq<Stats>>, x: Stats)
    requires NonEmpty(parts)
    ensures NonEmpty(Grow(parts, x)) && EndsIn(Grow(parts, x), x) && Joined(Grow(parts, x)) == Joined(parts) + [x]
  {
    if parts != [] && Continues(parts[|parts| - 1], x) {
      assert Grow(parts, x)[..|parts| - 1] == parts[..|parts| - 1];
    } else {
      assert Grow(parts, x)[..|parts|] == parts;
    }
  }

  /** The segments, put together again, are the list. */
  lemma {:induction false} SegmentsJoin(s: seq<Stats>)
    ensures NonEmpty(Segments(s)) && Joined(Segments(s)) == s
    ensures s != [] ==> EndsIn(Segments(s), s[|s| - 1])
  {
    if s != [] {
      SegmentsJoin(s[..|s| - 1]);
      GrowJoins(Segments(s[..|s| - 1]), s[|s| - 1]);
    }
  }

  predicate AllNear(part: seq<Stats>) { forall i | 0 <= i < |part| - 1 :: Near(part[i + 1], part[i]) }

  predicate Apart(a: seq<Stats>, b: seq<Stats>) { a != [] && b != [] && !Near(b[0], a[|a| - 1]) }

  ghost predicate Separate(parts: seq<seq<Stats>>) {
    && (forall k | 0 <= k < |parts| :: AllNear(parts[k]))
    && (forall k | 0 <= k < |parts| - 1 :: Apart(parts[k], parts[k + 1]))
  }

  lemma GrowSeparates(parts: seq<seq<Stats>>, x: Stats)
    requires NonEmpty(parts) && Separate(parts)
    ensures Separate(Grow(parts, x))
  {
    var grown, n := Grow(parts, x), |parts| - 1;
    if parts != [] && Continues(parts[n], x) {
      forall k | 0 <= k < |grown| ensures AllNear(grown[k]) {
        if k < n {
          assert grown[k] == parts[k];
        } else {
          assert AllNear(parts[n]);
        }
      }
      forall k | 0 <= k < |grown| - 1 ensures Apart(grown[k], grown[k + 1]) {
        assert Apart(parts[k], parts[k + 1]);
      }
    } else {
      forall k | 0 <= k < |grown| ensures AllNear(grown[k]) {
        assert k <= n ==> grown[k] == parts[k];
      }
      forall k | 0 <= k < |grown| - 1 ensures Apart(grown[k], grown[k + 1]) {
        assert k < n ==> Apart(parts[k], parts[k + 1]);
      }
    }
  }

  /** Within a segment neighbours are near, and where one ends and the next begins they are not. */
  lemma {:induction false} SegmentsSeparate(s: seq<Stats>)
    ensures Separate(Segments(s))
  {
    if s != [] {
      SegmentsSeparate(s[..|s| - 1]);
      SegmentsJoin(s[..|s| - 1]);
      GrowSeparates(Segments(s[..|s| - 1]), s[|s| - 1]);
    }
  }

  // ---- The loop over the sorted statistics ----

  /** The accumulators of the open zone. */
  datatype Open = Open(start: real, end: real, stddevSum: real, meanSum: real, rateSum: real, count: nat)

  function OpenOf(part: seq<Stats>): Open
    requires part != []
  {
    Open(part[0].sl, part[|part| - 1].sl, Sum(part, Volatility), Sum(part, Pnl), Sum(part, TriggerRate), |part|)
  }

  function Finalised(o: Open): Zone
    requires o.count > 0
  {
    var n := o.count as real;
    Zone(o.start, o.end, Fixed4(o.stddevSum / n), Fixed4(o.meanSum / n), Fixed4(o.rateSum / n))
  }

  function Extended(o: Open, x: Stats): Open {
    Open(o.start, x.sl, o.stddevSum + x.stddev, o.meanSum + x.mean, o.rateSum + x.rate, o.count + 1)
  }

  lemma OpenExtends(part: seq<Stats>, x: Stats)
    requires part != []
    ensures OpenOf(part + [x]) == Extended(OpenOf(part), x)
  {
    assert (part + [x])[..|part|] == part;
  }

  lemma OpenStarts(x: Stats)
    ensures OpenOf([x]) == StartedWith(x)
  {
    assert [x][..0] == [];
    assert Sum([x], Volatility) == Sum([], Volatility) + x.stddev;
    assert Sum([x], Pnl) == Sum([], Pnl) + x.mean;
    assert Sum([x], TriggerRate) == Sum([], TriggerRate) + x.rate;
  }

  function StartedWith(x: Stats): Open { Open(x.sl, x.sl, x.stddev, x.mean, x.rate, 1) }

  lemma GrowOpen(parts: seq<seq<Stats>>, x: Stats)
    requires NonEmpty(parts) && parts != []
    ensures var n := |parts| - 1;
            var open, grown := OpenOf(parts[n]), Grow(parts, x);
            && NonEmpty(grown) && grown != []
            && (-1.0 <= x.sl - open.end <= 1.0 ==>
                  OpenOf(grown[|grown| - 1]) == Extended(open, x) && grown[..|grown| - 1] == parts[..n])
            && (!(-1.0 <= x.sl - open.end <= 1.0) ==>
                  OpenOf(grown[|grown| - 1]) == StartedWith(x)
                  && ZonesOf(grown[..|grown| - 1]) == ZonesOf(parts[..n]) + [Finalised(open)])
  {
    var n := |parts| - 1;
    GrowJoins(parts, x);
    OpenExtends(parts[n], x);
    OpenStarts(x);
    if !Continues(parts[n], x) {
      assert Grow(parts, x)[..n + 1] == parts;
    }
  }

  method FindZones(stats: seq<Stats>) returns (zones: seq<Zone>)
    ensures NonEmpty(Segments(stats)) && zones == ZonesOf(Segments(stats))
  {
    zones := [];
    SegmentsJoin(stats);
    if stats == [] {
      return;
    }
    var open := StartedWith(stats[0]);
    assert stats[..1][..0] == [];
    OpenStarts(stats[0]);
    ghost var parts := [[stats[0]]];
    for i := 1 to |stats|
      invariant parts == Segments(stats[..i]) && NonEmpty(parts) && parts != []
      invariant zones == ZonesOf(parts[..|parts| - 1]) && open == OpenOf(parts[|parts| - 1])
    {
      var stat := stats[i];
      assert stats[..i + 1][..i] == stats[..i];
      GrowJoins(parts, stat);
      GrowOpen(parts, stat);
      if -1.0 <= stat.sl - open.end <= 1.0 {
        open := Extended(open, stat);
      } else {
        zones := zones + [Finalised(open)];
        open := StartedWith(stat);
      }
      parts := Grow(parts, stat);
    }
    assert stats[..|stats|] == stats;
    zones := zones + [Finalised(open)];
  }

  method FindStabilityZones(combos: seq<Combo>, root: real -> real) returns (zones: seq<Zone>)
    ensures zones == StabilityZones(combos, root)
  {
    if combos == [] {
      assert Groups(combos) == [] && ByVolatility([]) == [] && Segments([]) == [];
      return [];
    }
    GroupsFilled(combos);
    var groups := GroupByDistance(combos);
    var all := FindZones(ByVolatility(AllStats(groups, root)));
    return if |all| <= 5 then all else all[..5];
  }

  function StabilityZones(combos: seq<Combo>, root: real -> real): seq<Zone> {
    GroupsFilled(combos);
    var stats := ByVolatility(AllStats(Groups(combos), root));
    SegmentsJoin(stats);
    var zones := ZonesOf(Segments(stats));
    if |zones| <= 5 then zones else zones[..5]
  }

  // ---- Zones come out most stable first ----

  lemma {:induction false} SumBounds(s: seq<Stats>, low: real, high: real)
    requires forall i | 0 <= i < |s| :: low <= s[i].stddev <= high
    ensures low * |s| as real <= Sum(s, Volatility) <= high * |s| as real
  {
    if s != [] {
      SumBounds(s[..|s| - 1], low, high);
      assert low * (|s| - 1) as real + low == low * |s| as real;
      assert high * (|s| - 1) as real + high == high * |s| as real;
    }
  }

  lemma AverageBounds(s: seq<Stats>, low: real, high: real)
    requires s != [] && forall i | 0 <= i < |s| :: low <= s[i].stddev <= high
    ensures low <= Average(s, Volatility) <= high
  {
    SumBounds(s, low, high);
    var n := |s| as real;
    DivideBounds(Sum(s, Volatility), n, low, high);
  }

  lemma DivideBounds(sum: real, n: real, low: real, high: real)
    requires n > 0.0 && low * n <= sum <= high * n
    ensures low <= sum / n <= high
  {
    var q := sum / n;
    assert q * n == sum;
    Cancel(low, q, n);
    Cancel(q, high, n);
  }

  lemma Cancel(a: real, b: real, n: real)
    requires n > 0.0 && a * n <= b * n
    ensures a <= b
  {
    assert a > b ==> (a - b) * n > 0.0;
  }

  lemma {:induction false} ZonesAt(parts: seq<seq<Stats>>, k: nat)
    requires NonEmpty(parts) && k < |parts|
    ensures |ZonesOf(parts)| == |parts| && ZonesOf(parts)[k] == ZoneOf(parts[k])
  {
    if k < |parts| - 1 {
      ZonesAt(parts[..|parts| - 1], k);
    } else if k > 0 {
      ZonesAt(parts[..|parts| - 1], k - 1);
    }
  }

  /** Where a row of one part stands in the whole. */
  lemma {:induction false} Position(parts: seq<seq<Stats>>, k: nat, i: nat) returns (at: nat)
    requires k < |parts| && i < |parts[k]|
    ensures at < |Joined(parts)| && Joined(parts)[at] == parts[k][i]
    ensures k < |parts| - 1 ==> at < |Joined(parts[..|parts| - 1])|
    ensures at == |Joined(parts[..k])| + i
    decreases |parts|
  {
    if k < |parts| - 1 {
      at := Position(parts[..|parts| - 1], k, i);
      assert parts[..|parts| - 1][..k] == parts[..k];
    } else {
      at := |Joined(parts[..k])| + i;
    }
  }

  lemma {:induction false} JoinedGrows(parts: seq<seq<Stats>>, a: nat, b: nat)
    requires a <= b <= |parts|
    ensures |Joined(parts[..a])| <= |Joined(parts[..b])|
    ensures a < b ==> |Joined(parts[..a])| + |parts[a]| <= |Joined(parts[..b])|
  {
    if a < b {
      assert parts[..b][..b - 1] == parts[..b - 1];
      JoinedGrows(parts, a, b - 1);
    }
  }

  lemma EarlierIsCalmer(parts: seq<seq<Stats>>, a: nat, b: nat, i: nat, j: nat)
    requires Ordered(Joined(parts)) && a < b < |parts| && i < |parts[a]| && j < |parts[b]|
    ensures parts[a][i].stddev <= parts[b][j].stddev
  {
    var x := Position(parts, a, i);
    var y := Position(parts, b, j);
    JoinedGrows(parts, a, b);
  }

  /** Zones are reported in non-decreasing volatility. */
  lemma ZonesAreOrdered(stats: seq<Stats>, a: nat, b: nat)
    requires Ordered(stats) && NonEmpty(Segments(stats)) && a < b < |ZonesOf(Segments(stats))|
    ensures ZonesOf(Segments(stats))[a].volatility <= ZonesOf(Segments(stats))[b].volatility
  {
    var parts := Segments(stats);
    SegmentsJoin(stats);
    SameLength(parts);
    ZonesAt(parts, a);
    ZonesAt(parts, b);
    var high := parts[a][|parts[a]| - 1].stddev;
    forall i | 0 <= i < |parts[a]| ensures parts[a][0].stddev <= parts[a][i].stddev <= high {
      WithinPart(parts, a, 0, i);
      WithinPart(parts, a, i, |parts[a]| - 1);
    }
    var top := parts[b][|parts[b]| - 1].stddev;
    forall j | 0 <= j < |parts[b]| ensures high <= parts[b][j].stddev <= top {
      EarlierIsCalmer(parts, a, b, |parts[a]| - 1, j);
      WithinPart(parts, b, j, |parts[b]| - 1);
    }
    AverageBounds(parts[a], parts[a][0].stddev, high);
    AverageBounds(parts[b], high, top);
    Fixed4Monotone(Average(parts[a], Volatility), Average(parts[b], Volatility));
  }

  lemma WithinPart(parts: seq<seq<Stats>>, k: nat, i: nat, j: nat)
    requires Ordered(Joined(parts)) && k < |parts| && i <= j < |parts[k]|
    ensures parts[k][i].stddev <= parts[k][j].stddev
  {
    var x := Position(parts, k, i);
    var y := Position(parts, k, j);
  }

  lemma {:induction false} SameLength(parts: seq<seq<Stats>>)
    requires NonEmpty(parts)
    ensures |ZonesOf(parts)| == |parts|
  {
    if parts != [] {
      SameLength(parts[..|parts| - 1]);
    }
  }

  /** The reported zones: at most five, calmest first. */
  lemma ReportedZonesAreOrdered(combos: seq<Combo>, root: real -> real, a: nat, b: nat)
    requires a < b < |StabilityZones(combos, root)|
    ensures |StabilityZones(combos, root)| <= 5
    ensures StabilityZones(combos, root)[a].volatility <= StabilityZones(combos, root)[b].volatility
  {
    GroupsFilled(combos);
    var stats := ByVolatility(AllStats(Groups(combos), root));
    ByVolatilityMeaning(AllStats(Groups(combos), root));
    SegmentsJoin(stats);
    ZonesAreOrdered(stats, a, b);
  }
}
