/** Cutting a frame to its newest rows after every merge loses nothing that a single cut at the end would keep. */
module Retention {
  import opened Bars

  /** One round of fetched rows or repaired gaps, and the clock it was merged at. */
  datatype Batch = Batch(rows: seq<Bar>, now: int)

  predicate ClockMovesForward(batches: seq<Batch>) {
    forall i, j | 0 <= i < j < |batches| :: batches[i].now <= batches[j].now
  }

  /** The frame as it is kept: merged and cut to n rows in every round. */
  function Kept(batches: seq<Batch>, tf: Timeframe, n: nat): seq<Bar> {
    if batches == [] then []
    else
      var b := batches[|batches| - 1];
      Tail(Merge(Kept(batches[..|batches| - 1], tf, n), b.rows, tf, b.now), n)
  }

  /** Every row that was closed when it arrived, in order of arrival. */
  function Arrived(batches: seq<Batch>, tf: Timeframe): seq<Bar> {
    if batches == [] then []
    else
      var b := batches[|batches| - 1];
      Arrived(batches[..|batches| - 1], tf) + KeepClosed(b.rows, tf, b.now)
  }

  function MergedOnce(batches: seq<Batch>, tf: Timeframe): seq<Bar> {
    SortByTime(DropDuplicates(Arrived(batches, tf)))
  }

  // The rows of an increasing frame from time c on.
  function From(s: seq<Bar>, c: int): seq<Bar> {
    if s == [] || c <= s[0].time then s else From(s[1..], c)
  }

  function KeysFrom(m: map<int, Bar>, c: int): map<int, Bar> {
    map t | t in m && c <= t :: m[t]
  }

  lemma {:induction false} FromIsSuffix(s: seq<Bar>, c: int)
    requires Increasing(s)
    ensures |From(s, c)| <= |s| && From(s, c) == s[|s| - |From(s, c)|..]
    ensures Increasing(From(s, c))
  {
    if s != [] && s[0].time < c {
      FromIsSuffix(s[1..], c);
    }
  }

  lemma KeysFromHead(b: Bar, m: map<int, Bar>, c: int)
    requires b.time < c
    ensures KeysFrom(map[b.time := b] + m, c) == KeysFrom(m, c)
  {}

  lemma {:induction false} FromMeaning(s: seq<Bar>, c: int)
    requires Increasing(s)
    ensures Newest(From(s, c)) == KeysFrom(Newest(s), c)
  {
    if s == [] {
      assert KeysFrom(Newest(s), c) == map[];
    } else if c <= s[0].time {
      forall t | t in Newest(s) ensures c <= t {
        NewestOf(s, t);
      }
      assert KeysFrom(Newest(s), c) == Newest(s);
    } else {
      FromMeaning(s[1..], c);
      NewestHead(s[0], s[1..]);
      assert s == [s[0]] + s[1..];
      KeysFromHead(s[0], Newest(s[1..]), c);
    }
  }

  lemma {:induction false} FromRow(s: seq<Bar>, i: nat)
    requires Increasing(s) && i < |s|
    ensures From(s, s[i].time) == s[i..]
  {
    if i > 0 {
      FromRow(s[1..], i - 1);
    }
  }

  lemma {:induction false} OneKeyPerRow(s: seq<Bar>)
    requires DistinctTimes(s)
    ensures |Newest(s).Keys| == |s|
  {
    if s != [] {
      OneKeyPerRow(s[..|s| - 1]);
      InitNewest(s);
      NewestAt(s, |s| - 1);
      assert Newest(s).Keys == Newest(s[..|s| - 1]).Keys + {s[|s| - 1].time};
    }
  }

  lemma SubsetIsSmaller(a: set<int>, b: set<int>)
    requires a <= b
    ensures |a| <= |b|
  {
    assert b == a + (b - a);
  }

  lemma TailOfFrom(s: seq<Bar>, c: int, n: nat)
    requires Increasing(s) && n <= |From(s, c)|
    ensures Tail(s, n) == Tail(From(s, c), n)
  {
    FromIsSuffix(s, c);
  }

  lemma KeptRowsSurvive(a: seq<Bar>, rows: seq<Bar>, tf: Timeframe, now: int, c: int)
    requires Increasing(a) && AllClosed(a, tf, now) && (a != [] ==> c <= a[0].time)
    ensures |From(Merge(a, rows, tf, now), c)| >= |a|
  {
    var m := Merge(a, rows, tf, now);
    MergeMeaning(a, rows, tf, now);
    NewestConcat(a, rows);
    FromMeaning(m, c);
    FromIsSuffix(m, c);
    OneKeyPerRow(a);
    OneKeyPerRow(From(m, c));
    forall t | t in Newest(a) ensures t in Newest(From(m, c)) {
      NewestOf(a, t);
      NewestOf(m, t);
    }
    SubsetIsSmaller(Newest(a).Keys, Newest(From(m, c)).Keys);
  }

  lemma KeysFromOfUnion(m: map<int, Bar>, k: map<int, Bar>, c: int, tf: Timeframe, now: int)
    ensures KeysFrom(OnlyClosed(KeysFrom(m, c) + k, tf, now), c) == KeysFrom(OnlyClosed(m + k, tf, now), c)
  {}

  lemma FromMerge(a: seq<Bar>, rows: seq<Bar>, tf: Timeframe, now: int, c: int)
    ensures var x := From(Merge(a, rows, tf, now), c);
            Increasing(x) && Newest(x) == KeysFrom(OnlyClosed(Newest(a) + Newest(rows), tf, now), c)
  {
    MergeMeaning(a, rows, tf, now);
    NewestConcat(a, rows);
    FromMeaning(Merge(a, rows, tf, now), c);
    FromIsSuffix(Merge(a, rows, tf, now), c);
  }

  lemma SameFrom(a: seq<Bar>, i: nat, rows: seq<Bar>, tf: Timeframe, now: int)
    requires Increasing(a) && i < |a|
    ensures From(Merge(a[i..], rows, tf, now), a[i].time) == From(Merge(a, rows, tf, now), a[i].time)
  {
    var c := a[i].time;
    FromRow(a, i);
    FromMeaning(a, c);
    FromMerge(a[i..], rows, tf, now, c);
    FromMerge(a, rows, tf, now, c);
    KeysFromOfUnion(Newest(a), Newest(rows), c, tf, now);
    FrameIsUnique(From(Merge(a[i..], rows, tf, now), c), From(Merge(a, rows, tf, now), c));
  }

  lemma CutKeepsTail(a: seq<Bar>, i: nat, rows: seq<Bar>, tf: Timeframe, now: int)
    requires Increasing(a) && AllClosed(a, tf, now) && i < |a|
    ensures |From(Merge(a, rows, tf, now), a[i].time)| >= |a| - i
  {
    assert AllClosed(a[i..], tf, now) by {
      assert forall b | b in a[i..] :: b in a;
    }
    KeptRowsSurvive(a[i..], rows, tf, now, a[i].time);
    SameFrom(a, i, rows, tf, now);
  }

  lemma TailMerge(a: seq<Bar>, rows: seq<Bar>, tf: Timeframe, now: int, n: nat)
    requires Increasing(a) && AllClosed(a, tf, now)
    ensures Tail(Merge(Tail(a, n), rows, tf, now), n) == Tail(Merge(a, rows, tf, now), n)
  {
    if 0 < n < |a| {
      CutMerge(a, |a| - n, rows, tf, now, n);
    }
  }

  lemma CutMerge(a: seq<Bar>, i: nat, rows: seq<Bar>, tf: Timeframe, now: int, n: nat)
    requires Increasing(a) && AllClosed(a, tf, now) && i < |a| && n == |a| - i
    ensures Tail(Merge(a[i..], rows, tf, now), n) == Tail(Merge(a, rows, tf, now), n)
  {
    SameFrom(a, i, rows, tf, now);
    CutKeepsTail(a, i, rows, tf, now);
    MergeIncreases(a[i..], rows, tf, now);
    MergeIncreases(a, rows, tf, now);
    TailOfFrom(Merge(a[i..], rows, tf, now), a[i].time, n);
    TailOfFrom(Merge(a, rows, tf, now), a[i].time, n);
  }

  lemma MergeIncreases(a: seq<Bar>, rows: seq<Bar>, tf: Timeframe, now: int)
    ensures Increasing(Merge(a, rows, tf, now))
  {
    MergeMeaning(a, rows, tf, now);
  }

  lemma OnlyClosedOfUnion(m: map<int, Bar>, k: map<int, Bar>, tf: Timeframe, now: int)
    requires forall t | t in m :: t + Seconds(tf) <= now
    ensures OnlyClosed(m + k, tf, now) == m + OnlyClosed(k, tf, now)
  {}

  lemma MergeOntoClosed(a: seq<Bar>, rows: seq<Bar>, tf: Timeframe, now: int)
    requires AllClosed(a, tf, now)
    ensures Newest(Merge(a, rows, tf, now)) == Newest(a + KeepClosed(rows, tf, now))
  {
    MergeMeaning(a, rows, tf, now);
    NewestConcat(a, rows);
    NewestConcat(a, KeepClosed(rows, tf, now));
    KeepClosedMeaning(rows, tf, now);
    forall t | t in Newest(a) ensures t + Seconds(tf) <= now {
      NewestOf(a, t);
    }
    OnlyClosedOfUnion(Newest(a), Newest(rows), tf, now);
  }

  lemma MergedOnceMeaning(batches: seq<Batch>, tf: Timeframe)
    ensures Increasing(MergedOnce(batches, tf))
    ensures Newest(MergedOnce(batches, tf)) == Newest(Arrived(batches, tf))
    ensures forall b :: b in MergedOnce(batches, tf) ==> b in Arrived(batches, tf)
  {
    var all := Arrived(batches, tf);
    DropDuplicatesMembers(all);
    DropDuplicatesMeaning(all);
    SortMeaning(DropDuplicates(all));
    SortMembers(DropDuplicates(all));
  }

  lemma {:induction false} ArrivedClosed(batches: seq<Batch>, tf: Timeframe, now: int)
    requires ClockMovesForward(batches) && (batches != [] ==> batches[|batches| - 1].now <= now)
    ensures AllClosed(Arrived(batches, tf), tf, now)
  {
    if batches != [] {
      var b := batches[|batches| - 1];
      ArrivedClosed(batches[..|batches| - 1], tf, now);
      KeepClosedMembers(b.rows, tf, b.now);
    }
  }

  lemma MergeOnceMore(batches: seq<Batch>, tf: Timeframe)
    requires ClockMovesForward(batches) && batches != []
    ensures var b := batches[|batches| - 1];
            var most := MergedOnce(batches[..|batches| - 1], tf);
            AllClosed(most, tf, b.now) && Merge(most, b.rows, tf, b.now) == MergedOnce(batches, tf)
  {
    var b, most := batches[|batches| - 1], batches[..|batches| - 1];
    MergedOnceMeaning(most, tf);
    MergedOnceMeaning(batches, tf);
    ArrivedClosed(most, tf, b.now);
    MergeOntoClosed(MergedOnce(most, tf), b.rows, tf, b.now);
    NewestConcat(MergedOnce(most, tf), KeepClosed(b.rows, tf, b.now));
    NewestConcat(Arrived(most, tf), KeepClosed(b.rows, tf, b.now));
    MergeMeaning(MergedOnce(most, tf), b.rows, tf, b.now);
    FrameIsUnique(Merge(MergedOnce(most, tf), b.rows, tf, b.now), MergedOnce(batches, tf));
  }

  /** Folding merge-then-cut over any rounds equals merging all rows at once and cutting a single time. */
  lemma {:induction false} CuttingLosesNothing(batches: seq<Batch>, tf: Timeframe, n: nat)
    requires ClockMovesForward(batches)
    ensures Kept(batches, tf, n) == Tail(MergedOnce(batches, tf), n)
  {
    if batches != [] {
      var b, most := batches[|batches| - 1], batches[..|batches| - 1];
      CuttingLosesNothing(most, tf, n);
      MergeOnceMore(batches, tf);
      MergedOnceMeaning(most, tf);
      TailMerge(MergedOnce(most, tf), b.rows, tf, b.now, n);
    }
  }

  lemma OneRow(row: Bar, tf: Timeframe, now: int)
    ensures KeepClosed([row], tf, now) == if Closed(row, tf, now) then [row] else []
    ensures SortByTime(DropDuplicates([row])) == [row] && SortByTime(DropDuplicates([])) == []
  {
    assert [row][..0] == [] && [row][1..] == [];
    assert KeepClosed([], tf, now) == [];
    assert DropDuplicates([row]) == [row];
    assert SortByTime([]) == [];
  }

  // ---- Exactly when nothing is lost ----

  predicate NeverDecreases(nows: seq<int>) {
    forall i, j | 0 <= i < j < |nows| :: nows[i] <= nows[j]
  }

  predicate MergedAt(batches: seq<Batch>, nows: seq<int>) {
    |batches| == |nows| && forall i | 0 <= i < |nows| :: batches[i].now == nows[i]
  }

  // A row that comes in round i, and nothing in any other round; the rounds before m.
  function RowAt(row: Bar, i: nat, nows: seq<int>, m: nat): seq<Batch>
    requires m <= |nows|
  {
    if m == 0 then [] else RowAt(row, i, nows, m - 1) + [RoundOf(row, m - 1 == i, nows[m - 1])]
  }

  lemma {:induction false} RowAtRounds(row: Bar, i: nat, nows: seq<int>, m: nat)
    requires m <= |nows|
    ensures |RowAt(row, i, nows, m)| == m && forall k | 0 <= k < m :: RowAt(row, i, nows, m)[k].now == nows[k]
  {
    if m > 0 {
      RowAtRounds(row, i, nows, m - 1);
    }
  }

  lemma MergeNothing(row: Bar, tf: Timeframe, now: int)
    ensures Merge([], [], tf, now) == []
    ensures Merge([row], [], tf, now) == if Closed(row, tf, now) then [row] else []
    ensures Merge([], [row], tf, now) == if Closed(row, tf, now) then [row] else []
  {
    OneRow(row, tf, now);
    var none: seq<Bar> := [];
    assert none + none == none && [row] + none == [row] && none + [row] == [row];
    assert KeepClosed([], tf, now) == [];
  }

  lemma OneMoreRound(batches: seq<Batch>, b: Batch, tf: Timeframe, n: nat)
    ensures Kept(batches + [b], tf, n) == Tail(Merge(Kept(batches, tf, n), b.rows, tf, b.now), n)
    ensures Arrived(batches + [b], tf) == Arrived(batches, tf) + KeepClosed(b.rows, tf, b.now)
  {
    assert (batches + [b])[..|batches|] == batches;
  }

  function RoundOf(row: Bar, comes: bool, now: int): Batch { Batch(if comes then [row] else [], now) }

  // What one round keeps, in which the row comes or nothing does.
  lemma RoundKeeps(batches: seq<Batch>, row: Bar, comes: bool, tf: Timeframe, now: int)
    requires Kept(batches, tf, 1) == [] || (!comes && Kept(batches, tf, 1) == [row])
    ensures Kept(batches + [RoundOf(row, comes, now)], tf, 1)
         == if Closed(row, tf, now) then (if comes then [row] else Kept(batches, tf, 1)) else []
  {
    OneMoreRound(batches, RoundOf(row, comes, now), tf, 1);
    MergeNothing(row, tf, now);
  }

  lemma RoundArrives(batches: seq<Batch>, row: Bar, comes: bool, tf: Timeframe, now: int)
    requires Arrived(batches, tf) == [] || !comes
    ensures Arrived(batches + [RoundOf(row, comes, now)], tf)
         == if comes && Closed(row, tf, now) then [row] else Arrived(batches, tf)
  {
    OneMoreRound(batches, RoundOf(row, comes, now), tf, 1);
    OneRow(row, tf, now);
    assert KeepClosed([], tf, now) == [];
  }

  // Whether the row is still there after m rounds: it came, and the clock was never behind it since.
  predicate Remains(row: Bar, i: nat, nows: seq<int>, tf: Timeframe, m: nat)
    requires m <= |nows|
  {
    m > 0 && Closed(row, tf, nows[m - 1]) && (m - 1 == i || Remains(row, i, nows, tf, m - 1))
  }

  lemma {:induction false} RemainsMeaning(row: Bar, i: nat, nows: seq<int>, tf: Timeframe, m: nat)
    requires m <= |nows| && Remains(row, i, nows, tf, m)
    ensures i < m && forall k | i <= k < m :: Closed(row, tf, nows[k])
  {
    if m - 1 != i {
      RemainsMeaning(row, i, nows, tf, m - 1);
    }
  }

  function IfRemains(row: Bar, remains: bool): seq<Bar> { if remains then [row] else [] }

  lemma {:induction false} RowIsKeptWhileItRemains(row: Bar, i: nat, nows: seq<int>, tf: Timeframe, m: nat)
    requires m <= |nows|
    ensures Kept(RowAt(row, i, nows, m), tf, 1) == IfRemains(row, Remains(row, i, nows, tf, m))
  {
    if m > 0 {
      RowIsKeptWhileItRemains(row, i, nows, tf, m - 1);
      if m - 1 == i && Remains(row, i, nows, tf, i) {
        RemainsMeaning(row, i, nows, tf, i);
      }
      RoundKeeps(RowAt(row, i, nows, m - 1), row, m - 1 == i, tf, nows[m - 1]);
    }
  }

  lemma {:induction false} RowArrives(row: Bar, i: nat, nows: seq<int>, tf: Timeframe, m: nat)
    requires i < |nows| && m <= |nows| && Closed(row, tf, nows[i])
    ensures Arrived(RowAt(row, i, nows, m), tf) == if i < m then [row] else []
  {
    if m > 0 {
      RowArrives(row, i, nows, tf, m - 1);
      RoundArrives(RowAt(row, i, nows, m - 1), row, m - 1 == i, tf, nows[m - 1]);
    }
  }

  lemma RowIsLost(row: Bar, i: nat, j: nat, nows: seq<int>, tf: Timeframe)
    requires i < j < |nows| && !Closed(row, tf, nows[j])
    ensures Kept(RowAt(row, i, nows, |nows|), tf, 1) == []
  {
    RowIsKeptWhileItRemains(row, i, nows, tf, |nows|);
    if Remains(row, i, nows, tf, |nows|) {
      RemainsMeaning(row, i, nows, tf, |nows|);
      assert false;
    }
  }

  lemma RowIsMerged(row: Bar, i: nat, nows: seq<int>, tf: Timeframe)
    requires i < |nows| && Closed(row, tf, nows[i])
    ensures Tail(MergedOnce(RowAt(row, i, nows, |nows|), tf), 1) == [row]
  {
    RowArrives(row, i, nows, tf, |nows|);
    OneRow(row, tf, nows[i]);
  }

  lemma SteppingBackLoses(nows: seq<int>, i: nat, j: nat, tf: Timeframe) returns (batches: seq<Batch>)
    requires i < j < |nows| && nows[j] < nows[i]
    ensures MergedAt(batches, nows) && Kept(batches, tf, 1) != Tail(MergedOnce(batches, tf), 1)
  {
    var row := Bar(nows[i] - Seconds(tf), 0.0, 0.0, 0.0, 0.0, 0.0, "");
    batches := RowAt(row, i, nows, |nows|);
    RowAtRounds(row, i, nows, |nows|);
    RowIsLost(row, i, j, nows, tf);
    RowIsMerged(row, i, nows, tf);
  }

  // Cutting after every round loses nothing, whatever rows arrive and however many are kept.
  ghost predicate Lossless(nows: seq<int>, tf: Timeframe) {
    forall batches, n: nat | MergedAt(batches, nows) :: Kept(batches, tf, n) == Tail(MergedOnce(batches, tf), n)
  }

  /** For a list of clock readings, cutting after every merge is lossless for all rows and all sizes exactly when the
      readings never decrease. */
  lemma LosslessIffClockNeverDecreases(nows: seq<int>, tf: Timeframe)
    ensures Lossless(nows, tf) <==> NeverDecreases(nows)
  {
    if NeverDecreases(nows) {
      forall batches, n: nat | MergedAt(batches, nows)
        ensures Kept(batches, tf, n) == Tail(MergedOnce(batches, tf), n)
      {
        CuttingLosesNothing(batches, tf, n);
      }
    } else {
      var i, j :| 0 <= i < j < |nows| && nows[j] < nows[i];
      var batches := SteppingBackLoses(nows, i, j, tf);
    }
  }
}
