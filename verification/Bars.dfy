/** Price bars as frames: closed bars only, one bar per time, in time order, the newest value winning. */
module Bars {

  datatype Timeframe = M5 | M15 | H1 | D1

  function Seconds(tf: Timeframe): int {
    match tf
    case M5 => 300
    case M15 => 900
    case H1 => 3600
    case D1 => 86400
  }

  /** How far a time lies past the last multiple of the timeframe's length. */
  function Remainder(t: int, tf: Timeframe): int {
    match tf
    case M5 => t % 300
    case M15 => t % 900
    case H1 => t % 3600
    case D1 => t % 86400
  }

  datatype Bar = Bar(time: int, open: real, high: real, low: real, close: real, volume: real, source: string)

  predicate Closed(b: Bar, tf: Timeframe, now: int) { b.time + Seconds(tf) <= now }

  predicate AllClosed(s: seq<Bar>, tf: Timeframe, now: int) {
    forall b | b in s :: Closed(b, tf, now)
  }

  predicate Increasing(s: seq<Bar>) {
    forall i, j | 0 <= i < j < |s| :: s[i].time < s[j].time
  }

  predicate HasTime(s: seq<Bar>, t: int) {
    exists b :: b in s && b.time == t
  }

  function KeepClosed(s: seq<Bar>, tf: Timeframe, now: int): seq<Bar> {
    if s == [] then []
    else KeepClosed(s[..|s| - 1], tf, now) + (if Closed(s[|s| - 1], tf, now) then [s[|s| - 1]] else [])
  }

  // Of several rows with one time the last one stays.
  function DropDuplicates(s: seq<Bar>): seq<Bar> {
    if s == [] then []
    else (if HasTime(s[1..], s[0].time) then [] else [s[0]]) + DropDuplicates(s[1..])
  }

  function Insert(b: Bar, s: seq<Bar>): seq<Bar> {
    if s == [] || b.time <= s[0].time then [b] + s else [s[0]] + Insert(b, s[1..])
  }

  function SortByTime(s: seq<Bar>): seq<Bar> {
    if s == [] then [] else Insert(s[0], SortByTime(s[1..]))
  }

  function Merge(cached: seq<Bar>, fetched: seq<Bar>, tf: Timeframe, now: int): seq<Bar> {
    SortByTime(DropDuplicates(KeepClosed(cached + fetched, tf, now)))
  }

  function Tail(s: seq<Bar>, n: nat): seq<Bar> {
    if |s| <= n then s else s[|s| - n..]
  }

  // ---- A frame is determined by the newest bar of each time ----

  function Newest(s: seq<Bar>): map<int, Bar> {
    if s == [] then map[] else Newest(s[..|s| - 1])[s[|s| - 1].time := s[|s| - 1]]
  }

  lemma {:induction false} NewestOf(s: seq<Bar>, t: int)
    ensures t in Newest(s) <==> HasTime(s, t)
    ensures t in Newest(s) ==> Newest(s)[t] in s && Newest(s)[t].time == t
  {
    if s != [] {
      NewestOf(s[..|s| - 1], t);
      assert s == s[..|s| - 1] + [s[|s| - 1]];
    }
  }

  lemma {:induction false} NewestConcat(a: seq<Bar>, b: seq<Bar>)
    ensures Newest(a + b) == Newest(a) + Newest(b)
  {
    if b == [] {
      assert a + b == a;
    } else {
      NewestConcat(a, b[..|b| - 1]);
      assert (a + b)[..|a + b| - 1] == a + b[..|b| - 1];
      assert (a + b)[|a + b| - 1] == b[|b| - 1];
    }
  }

  lemma NewestAppend(s: seq<Bar>, b: Bar)
    ensures Newest(s + [b]) == Newest(s)[b.time := b]
  {
    assert (s + [b])[..|s|] == s;
  }

  function OnlyClosed(m: map<int, Bar>, tf: Timeframe, now: int): map<int, Bar> {
    map t | t in m && t + Seconds(tf) <= now :: m[t]
  }

  lemma {:induction false} KeepClosedMembers(s: seq<Bar>, tf: Timeframe, now: int)
    ensures forall b :: b in KeepClosed(s, tf, now) <==> b in s && Closed(b, tf, now)
  {
    if s != [] {
      KeepClosedMembers(s[..|s| - 1], tf, now);
      assert s == s[..|s| - 1] + [s[|s| - 1]];
    }
  }

  lemma OnlyClosedUpdate(m: map<int, Bar>, b: Bar, tf: Timeframe, now: int)
    ensures OnlyClosed(m[b.time := b], tf, now)
         == if Closed(b, tf, now) then OnlyClosed(m, tf, now)[b.time := b] else OnlyClosed(m, tf, now)
  {}

  lemma {:induction false} KeepClosedMeaning(s: seq<Bar>, tf: Timeframe, now: int)
    ensures Newest(KeepClosed(s, tf, now)) == OnlyClosed(Newest(s), tf, now)
  {
    if s == [] {
      assert OnlyClosed(Newest(s), tf, now) == map[];
    } else {
      var most, last := s[..|s| - 1], s[|s| - 1];
      KeepClosedMeaning(most, tf, now);
      OnlyClosedUpdate(Newest(most), last, tf, now);
      if Closed(last, tf, now) {
        NewestAppend(KeepClosed(most, tf, now), last);
      } else {
        assert KeepClosed(s, tf, now) == KeepClosed(most, tf, now);
      }
    }
  }

  lemma {:induction false} KeepClosedOfClosed(s: seq<Bar>, tf: Timeframe, now: int)
    requires AllClosed(s, tf, now)
    ensures KeepClosed(s, tf, now) == s
  {
    if s != [] {
      KeepClosedOfClosed(s[..|s| - 1], tf, now);
      assert s == s[..|s| - 1] + [s[|s| - 1]];
    }
  }

  predicate DistinctTimes(s: seq<Bar>) {
    forall i, j | 0 <= i < j < |s| :: s[i].time != s[j].time
  }

  lemma NewestHead(b: Bar, s: seq<Bar>)
    ensures Newest([b] + s) == map[b.time := b] + Newest(s)
  {
    NewestConcat([b], s);
    assert [b][..0] == [];
  }

  lemma {:induction false} DropDuplicatesMembers(s: seq<Bar>)
    ensures DistinctTimes(DropDuplicates(s))
    ensures forall b | b in DropDuplicates(s) :: b in s
  {
    if s != [] {
      var d := DropDuplicates(s[1..]);
      DropDuplicatesMembers(s[1..]);
      assert forall b | b in d :: b in s[1..];
      if !HasTime(s[1..], s[0].time) {
        assert forall b | b in d :: b.time != s[0].time;
        assert DropDuplicates(s) == [s[0]] + d;
      } else {
        assert DropDuplicates(s) == d;
      }
    }
  }

  lemma Overridden(b: Bar, m: map<int, Bar>)
    requires b.time in m
    ensures map[b.time := b] + m == m
  {}

  lemma {:induction false} DropDuplicatesMeaning(s: seq<Bar>)
    ensures Newest(DropDuplicates(s)) == Newest(s)
  {
    if s != [] {
      var d := DropDuplicates(s[1..]);
      DropDuplicatesMeaning(s[1..]);
      NewestHead(s[0], s[1..]);
      assert s == [s[0]] + s[1..];
      NewestOf(s[1..], s[0].time);
      if HasTime(s[1..], s[0].time) {
        assert DropDuplicates(s) == d;
        Overridden(s[0], Newest(s[1..]));
      } else {
        assert DropDuplicates(s) == [s[0]] + d;
        NewestHead(s[0], d);
      }
    }
  }

  lemma {:induction false} InsertMembers(b: Bar, s: seq<Bar>)
    ensures forall x :: x in Insert(b, s) <==> x == b || x in s
    ensures |Insert(b, s)| == |s| + 1
  {
    if s != [] && b.time > s[0].time {
      InsertMembers(b, s[1..]);
      assert s == [s[0]] + s[1..];
    }
  }

  lemma {:induction false} InsertIncreasing(b: Bar, s: seq<Bar>)
    requires Increasing(s) && !HasTime(s, b.time)
    ensures Increasing(Insert(b, s))
  {
    if s != [] {
      assert s[0] in s;
      if b.time > s[0].time {
        assert forall x | x in s[1..] :: x in s;
        InsertIncreasing(b, s[1..]);
        InsertMembers(b, s[1..]);
        var r := Insert(b, s[1..]);
        forall j | 0 <= j < |r| ensures s[0].time < r[j].time {
          assert r[j] in r;
        }
        assert Insert(b, s) == [s[0]] + r;
      }
    }
  }

  lemma SwapHeads(a: Bar, b: Bar, m: map<int, Bar>)
    requires a.time != b.time
    ensures map[a.time := a] + (map[b.time := b] + m) == map[b.time := b] + (map[a.time := a] + m)
  {}

  lemma NewestOfTwoHeads(a: Bar, b: Bar, s: seq<Bar>, t: seq<Bar>)
    requires a.time != b.time && Newest(t) == map[b.time := b] + Newest(s)
    ensures Newest([a] + t) == Newest([b] + ([a] + s))
  {
    NewestHead(a, t);
    NewestHead(a, s);
    NewestHead(b, [a] + s);
    SwapHeads(a, b, Newest(s));
  }

  lemma {:induction false} InsertMeaning(b: Bar, s: seq<Bar>)
    requires !HasTime(s, b.time)
    ensures Newest(Insert(b, s)) == Newest([b] + s)
  {
    if s != [] && b.time > s[0].time {
      assert s[0] in s && forall x | x in s[1..] :: x in s;
      InsertMeaning(b, s[1..]);
      NewestHead(b, s[1..]);
      assert s == [s[0]] + s[1..];
      NewestOfTwoHeads(s[0], b, s[1..], Insert(b, s[1..]));
    }
  }

  lemma {:induction false} SortMembers(s: seq<Bar>)
    ensures forall b :: b in SortByTime(s) <==> b in s
    ensures |SortByTime(s)| == |s|
  {
    if s != [] {
      SortMembers(s[1..]);
      InsertMembers(s[0], SortByTime(s[1..]));
      assert s == [s[0]] + s[1..];
    }
  }

  lemma {:induction false} SortMeaning(s: seq<Bar>)
    requires DistinctTimes(s)
    ensures Increasing(SortByTime(s)) && Newest(SortByTime(s)) == Newest(s)
  {
    if s != [] {
      assert s == [s[0]] + s[1..];
      var r := SortByTime(s[1..]);
      SortMeaning(s[1..]);
      SortMembers(s[1..]);
      assert !HasTime(r, s[0].time);
      InsertIncreasing(s[0], r);
      InsertMeaning(s[0], r);
      NewestHead(s[0], r);
      NewestHead(s[0], s[1..]);
    }
  }

  /** Merging yields strictly increasing times, closed bars only, and for each time the newest row given. */
  lemma MergeMeaning(cached: seq<Bar>, fetched: seq<Bar>, tf: Timeframe, now: int)
    ensures var m := Merge(cached, fetched, tf, now);
            && Increasing(m) && AllClosed(m, tf, now)
            && Newest(m) == OnlyClosed(Newest(cached + fetched), tf, now)
            && (forall b | b in m :: b in cached || b in fetched)
  {
    var closed := KeepClosed(cached + fetched, tf, now);
    KeepClosedMeaning(cached + fetched, tf, now);
    KeepClosedMembers(cached + fetched, tf, now);
    DropDuplicatesMeaning(closed);
    DropDuplicatesMembers(closed);
    SortMeaning(DropDuplicates(closed));
    SortMembers(DropDuplicates(closed));
  }

  lemma IncreasingIsDistinct(s: seq<Bar>)
    requires Increasing(s)
    ensures DistinctTimes(s)
  {}

  lemma {:induction false} NewestAt(s: seq<Bar>, i: nat)
    requires DistinctTimes(s) && i < |s|
    ensures s[i].time in Newest(s) && Newest(s)[s[i].time] == s[i]
  {
    if i < |s| - 1 {
      NewestAt(s[..|s| - 1], i);
    }
  }

  lemma InitNewest(s: seq<Bar>)
    requires DistinctTimes(s) && s != []
    ensures Newest(s[..|s| - 1]) == Newest(s) - {s[|s| - 1].time}
  {
    NewestOf(s[..|s| - 1], s[|s| - 1].time);
    TakeBack(Newest(s[..|s| - 1]), s[|s| - 1]);
  }

  lemma TakeBack(m: map<int, Bar>, b: Bar)
    requires b.time !in m
    ensures m[b.time := b] - {b.time} == m
  {}

  lemma LastIsLatest(s: seq<Bar>, t: int)
    requires Increasing(s) && s != [] && t in Newest(s)
    ensures t <= s[|s| - 1].time
    ensures s[|s| - 1].time in Newest(s) && Newest(s)[s[|s| - 1].time] == s[|s| - 1]
  {
    NewestOf(s, t);
    NewestAt(s, |s| - 1);
  }

  /** Two strictly increasing frames with the same bar for each time are the same frame. */
  lemma {:induction false} FrameIsUnique(a: seq<Bar>, b: seq<Bar>)
    requires Increasing(a) && Increasing(b) && Newest(a) == Newest(b)
    ensures a == b
  {
    if a == [] {
      if b != [] {
        NewestAt(b, 0);
      }
    } else {
      NewestAt(a, |a| - 1);
      assert b != [];
      NewestAt(b, |b| - 1);
      LastIsLatest(a, b[|b| - 1].time);
      LastIsLatest(b, a[|a| - 1].time);
      InitNewest(a);
      InitNewest(b);
      FrameIsUnique(a[..|a| - 1], b[..|b| - 1]);
      assert a == a[..|a| - 1] + [a[|a| - 1]] && b == b[..|b| - 1] + [b[|b| - 1]];
    }
  }
}
