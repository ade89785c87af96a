/** What a refresh promises about the frame it returns. */
module GapTheorems {
  import opened Wrappers
  import opened Bars
  import opened Validation
  import opened Gaps
  import opened GapSoundness

  // ---- The rows of the returned frame ----

  lemma {:induction false} ConcatMember(parts: seq<seq<Bar>>, b: Bar)
    ensures b in Concat(parts) <==> exists block :: block in parts && b in block
  {
    if parts != [] {
      ConcatMember(parts[..|parts| - 1], b);
      assert parts == parts[..|parts| - 1] + [parts[|parts| - 1]];
    }
  }

  /** The newest bar at a time is the one of the last block that has that time. */
  lemma {:induction false} NewestInBlock(parts: seq<seq<Bar>>, k: nat, j: nat)
    requires k < |parts| && j < |parts[k]| && DistinctTimes(parts[k])
    requires forall m | k < m < |parts| :: !HasTime(parts[m], parts[k][j].time)
    ensures parts[k][j].time in Newest(Concat(parts)) && Newest(Concat(parts))[parts[k][j].time] == parts[k][j]
  {
    var last := |parts| - 1;
    var t := parts[k][j].time;
    NewestConcat(Concat(parts[..last]), parts[last]);
    if k == last {
      NewestAt(parts[k], j);
    } else {
      assert parts[..last][k] == parts[k];
      NewestInBlock(parts[..last], k, j);
      NewestOf(parts[last], t);
    }
  }

  function Repaired(p: Pass, frame: seq<Bar>, tf: Timeframe, now: int): seq<Bar> {
    if p.additions == [] then frame else Merge(frame, Concat(p.additions), tf, now)
  }

  ghost predicate Ready(p: Pass, frame: seq<Bar>, tf: Timeframe, identity: Identity, now: int) {
    Increasing(frame) && AllClosed(frame, tf, now) && SoundPass(p, frame, |frame|, identity, tf, now)
  }

  lemma OnlyClosedOfClosed(s: seq<Bar>, tf: Timeframe, now: int)
    requires AllClosed(s, tf, now)
    ensures OnlyClosed(Newest(s), tf, now) == Newest(s)
  {
    forall t | t in Newest(s) ensures t + Seconds(tf) <= now {
      NewestOf(s, t);
    }
  }

  lemma AdditionsClosed(p: Pass, frame: seq<Bar>, tf: Timeframe, identity: Identity, now: int)
    requires Ready(p, frame, tf, identity, now)
    ensures AllClosed(Concat(p.additions), tf, now)
  {
    forall b | b in Concat(p.additions) ensures Closed(b, tf, now) {
      ConcatMember(p.additions, b);
      var block :| block in p.additions && b in block;
      assert Grounded(block, p.log, identity, tf, now);
    }
  }

  lemma RepairedMeaning(p: Pass, frame: seq<Bar>, tf: Timeframe, identity: Identity, now: int)
    requires Ready(p, frame, tf, identity, now)
    ensures var r := Repaired(p, frame, tf, now);
            Increasing(r) && AllClosed(r, tf, now) && Newest(r) == Newest(frame) + Newest(Concat(p.additions))
  {
    var all := Concat(p.additions);
    MergeMeaning(frame, all, tf, now);
    NewestConcat(frame, all);
    AdditionsClosed(p, frame, tf, identity, now);
    assert AllClosed(frame + all, tf, now);
    OnlyClosedOfClosed(frame + all, tf, now);
    if p.additions == [] {
      assert Newest(all) == map[];
    }
  }

  ghost predicate InBlock(p: Pass, frame: seq<Bar>, i: nat, t: int, tf: Timeframe) {
    exists block :: block in p.additions && Fits(block, frame, i, tf) && HasTime(block, t)
  }

  lemma BlockSpan(block: seq<Bar>, frame: seq<Bar>, i: nat, t: int, tf: Timeframe)
    requires Increasing(block) && Fits(block, frame, i, tf) && HasTime(block, t)
    ensures frame[i - 1].time <= t <= frame[i].time
  {
    var b :| b in block && b.time == t;
    var j :| 0 <= j < |block| && block[j] == b;
    assert block[0].time <= block[j].time <= block[|block| - 1].time;
  }

  lemma InBlockSpan(p: Pass, frame: seq<Bar>, tf: Timeframe, identity: Identity, now: int, i: nat, t: int)
    requires Ready(p, frame, tf, identity, now) && InBlock(p, frame, i, t, tf)
    ensures 1 <= i < |frame| && frame[i - 1].time <= t <= frame[i].time
  {
    var block :| block in p.additions && Fits(block, frame, i, tf) && HasTime(block, t);
    assert Grounded(block, p.log, identity, tf, now);
    BlockSpan(block, frame, i, t, tf);
  }

  lemma RowOf(frame: seq<Bar>, t: int) returns (j: nat)
    requires HasTime(frame, t)
    ensures j < |frame| && frame[j].time == t
  {
    var b :| b in frame && b.time == t;
    j :| 0 <= j < |frame| && frame[j] == b;
  }

  // Two intervals between neighbouring rows meet at most in a row they share.
  lemma SpansMeet(frame: seq<Bar>, i: nat, h: nat, t: int)
    requires Increasing(frame) && 1 <= i < |frame| && 1 <= h < |frame|
    requires frame[i - 1].time <= t <= frame[i].time && frame[h - 1].time <= t <= frame[h].time
    ensures h == i || (h == i - 1 && t == frame[h].time) || (h - 1 == i && t == frame[i].time)
  {
    assert h < i ==> frame[h].time <= frame[i - 1].time;
    assert i < h ==> frame[i].time <= frame[h - 1].time;
  }

  lemma RowInSpan(frame: seq<Bar>, i: nat, j: nat)
    requires Increasing(frame) && 1 <= i < |frame| && j < |frame| && frame[i - 1].time <= frame[j].time <= frame[i].time
    ensures j == i - 1 || j == i
  {}

  /** A time of the repaired frame lies in the old frame or inside a hole that an answer fills. */
  lemma WhereTimesComeFrom(p: Pass, frame: seq<Bar>, tf: Timeframe, identity: Identity, now: int, t: int)
    requires Ready(p, frame, tf, identity, now) && HasTime(Repaired(p, frame, tf, now), t)
    ensures HasTime(frame, t) || exists i :: 1 <= i < |frame| && InBlock(p, frame, i, t, tf)
  {
    RepairedMeaning(p, frame, tf, identity, now);
    NewestOf(Repaired(p, frame, tf, now), t);
    NewestOf(frame, t);
    if t !in Newest(frame) {
      NewestOf(Concat(p.additions), t);
      var b := Newest(Concat(p.additions))[t];
      ConcatMember(p.additions, b);
      var block :| block in p.additions && b in block;
      assert FitsSome(block, frame, |frame|, tf);
      var i :| 1 <= i < |frame| && Fits(block, frame, i, tf);
      assert InBlock(p, frame, i, t, tf);
    }
  }

  lemma InHole(p: Pass, frame: seq<Bar>, tf: Timeframe, identity: Identity, now: int, t: int, i: nat)
    requires Ready(p, frame, tf, identity, now) && HasTime(Repaired(p, frame, tf, now), t)
    requires 1 <= i < |frame| && frame[i - 1].time <= t <= frame[i].time
    ensures t == frame[i - 1].time || t == frame[i].time || InBlock(p, frame, i, t, tf)
  {
    WhereTimesComeFrom(p, frame, tf, identity, now, t);
    if HasTime(frame, t) {
      var j := RowOf(frame, t);
      RowInSpan(frame, i, j);
    } else {
      var h: nat :| 1 <= h < |frame| && InBlock(p, frame, h, t, tf);
      InBlockSpan(p, frame, tf, identity, now, h, t);
      SpansMeet(frame, i, h, t);
    }
  }

  /** At most one block stands for a hole. */
  lemma OneBlock(p: Pass, frame: seq<Bar>, tf: Timeframe, i: nat, a: nat, b: nat)
    requires Increasing(frame) && InOrder(p.additions) && a < |p.additions| && b < |p.additions|
    requires Fits(p.additions[a], frame, i, tf) && Fits(p.additions[b], frame, i, tf)
    ensures a == b
  {
    assert frame[i - 1].time < frame[i].time;
  }

  lemma RepairedHas(p: Pass, frame: seq<Bar>, tf: Timeframe, identity: Identity, now: int, t: int)
    requires Ready(p, frame, tf, identity, now)
    requires HasTime(frame, t) || exists block :: block in p.additions && HasTime(block, t)
    ensures HasTime(Repaired(p, frame, tf, now), t)
  {
    RepairedMeaning(p, frame, tf, identity, now);
    NewestOf(Repaired(p, frame, tf, now), t);
    NewestOf(frame, t);
    if !HasTime(frame, t) {
      var block :| block in p.additions && HasTime(block, t);
      var b :| b in block && b.time == t;
      ConcatMember(p.additions, b);
      NewestOf(Concat(p.additions), t);
      assert b in Concat(p.additions);
    }
  }

  lemma {:induction false} RowBefore(frame: seq<Bar>, t: int) returns (i: nat)
    requires Increasing(frame) && frame != [] && frame[0].time <= t < frame[|frame| - 1].time
    ensures 1 <= i < |frame| && frame[i - 1].time <= t < frame[i].time
  {
    i := 1;
    while frame[i].time <= t
      invariant 1 <= i < |frame| && frame[i - 1].time <= t
      decreases |frame| - i
    {
      i := i + 1;
    }
  }

  /** Two neighbouring rows of the repaired frame lie within two neighbouring rows of the old one. */
  lemma WithinOneHole(p: Pass, frame: seq<Bar>, tf: Timeframe, identity: Identity, now: int, k: nat) returns (i: nat)
    requires Ready(p, frame, tf, identity, now) && k + 1 < |Repaired(p, frame, tf, now)|
    ensures 1 <= i < |frame|
    ensures var r := Repaired(p, frame, tf, now);
            frame[i - 1].time <= r[k].time < r[k + 1].time <= frame[i].time
  {
    var r := Repaired(p, frame, tf, now);
    RepairedMeaning(p, frame, tf, identity, now);
    InsideFrame(p, frame, tf, identity, now, k);
    InsideFrame(p, frame, tf, identity, now, k + 1);
    i := RowBefore(frame, r[k].time);
    assert frame[i] in frame;
    RepairedHas(p, frame, tf, identity, now, frame[i].time);
    NextRow(r, k, frame[i].time);
  }

  lemma NextRow(r: seq<Bar>, k: nat, t: int)
    requires Increasing(r) && k + 1 < |r| && HasTime(r, t) && r[k].time < t
    ensures r[k + 1].time <= t
  {
    var j := RowOf(r, t);
    assert j <= k || k + 1 <= j;
  }

  lemma InsideFrame(p: Pass, frame: seq<Bar>, tf: Timeframe, identity: Identity, now: int, k: nat)
    requires Ready(p, frame, tf, identity, now) && k < |Repaired(p, frame, tf, now)|
    ensures frame != [] && frame[0].time <= Repaired(p, frame, tf, now)[k].time <= frame[|frame| - 1].time
  {
    assert Repaired(p, frame, tf, now)[k] in Repaired(p, frame, tf, now);
    TimeInside(p, frame, tf, identity, now, Repaired(p, frame, tf, now)[k].time);
  }

  lemma TimeInside(p: Pass, frame: seq<Bar>, tf: Timeframe, identity: Identity, now: int, t: int)
    requires Ready(p, frame, tf, identity, now) && HasTime(Repaired(p, frame, tf, now), t)
    ensures frame != [] && frame[0].time <= t <= frame[|frame| - 1].time
  {
    WhereTimesComeFrom(p, frame, tf, identity, now, t);
    forall i: nat | 1 <= i < |frame| && InBlock(p, frame, i, t, tf) ensures InSpan(frame, i, t) {
      InBlockSpan(p, frame, tf, identity, now, i, t);
    }
    SpanWithin(frame, t);
  }

  predicate InSpan(frame: seq<Bar>, i: nat, t: int)
    requires 1 <= i < |frame|
  {
    frame[i - 1].time <= t <= frame[i].time
  }

  lemma SpanWithin(frame: seq<Bar>, t: int)
    requires Increasing(frame)
    requires HasTime(frame, t) || exists i: nat :: 1 <= i < |frame| && InSpan(frame, i, t)
    ensures frame != [] && frame[0].time <= t <= frame[|frame| - 1].time
  {
    if HasTime(frame, t) {
      var j := RowOf(frame, t);
      RowsWithin(frame, j, j, t);
    } else {
      var i: nat :| 1 <= i < |frame| && InSpan(frame, i, t);
      RowsWithin(frame, i - 1, i, t);
    }
  }

  lemma RowsWithin(frame: seq<Bar>, h: nat, i: nat, t: int)
    requires Increasing(frame) && h < |frame| && i < |frame| && frame[h].time <= t <= frame[i].time
    ensures frame[0].time <= t <= frame[|frame| - 1].time
  {
    assert frame[0].time <= frame[h].time && frame[i].time <= frame[|frame| - 1].time;
  }

  // ---- The values of the returned frame ----

  // The hole before row i is answered by a block, rather than by a remembered signature.
  ghost predicate HasBlock(p: Pass, frame: seq<Bar>, i: nat, tf: Timeframe) {
    exists block :: block in p.additions && Fits(block, frame, i, tf)
  }

  ghost function BlockOf(p: Pass, frame: seq<Bar>, i: nat, tf: Timeframe): (block: seq<Bar>)
    requires HasBlock(p, frame, i, tf)
    ensures block in p.additions && Fits(block, frame, i, tf)
  {
    var block :| block in p.additions && Fits(block, frame, i, tf);
    block
  }

  /** The first and the last row of whatever answers the hole before row i. */
  ghost function LeftRow(p: Pass, frame: seq<Bar>, i: nat, tf: Timeframe): Bar
    requires 1 <= i < |frame|
  {
    if HasBlock(p, frame, i, tf) then BlockOf(p, frame, i, tf)[0] else frame[i - 1]
  }

  ghost function RightRow(p: Pass, frame: seq<Bar>, i: nat, tf: Timeframe): Bar
    requires 1 <= i < |frame|
  {
    if HasBlock(p, frame, i, tf) then BlockOf(p, frame, i, tf)[|BlockOf(p, frame, i, tf)| - 1] else frame[i]
  }

  /** The two sources that meet at row m, if it has a hole on either side, say the same of it. */
  ghost predicate Agree(p: Pass, frame: seq<Bar>, m: nat, tf: Timeframe) {
    (1 <= m < |frame| - 1 && IsHole(frame[m - 1], frame[m], tf) && IsHole(frame[m], frame[m + 1], tf))
      ==> CornerOf(RightRow(p, frame, m, tf)) == CornerOf(LeftRow(p, frame, m + 1, tf))
  }

  ghost predicate DisagreesAt(p: Pass, frame: seq<Bar>, t: int, tf: Timeframe) {
    exists m: nat :: m < |frame| && frame[m].time == t && !Agree(p, frame, m, tf)
  }

  // What the repaired frame has at row m: the later answer's row, else the earlier one's, else the old row.
  ghost function Prevailing(p: Pass, frame: seq<Bar>, m: nat, tf: Timeframe): Bar
    requires m < |frame|
  {
    if HasBlock(p, frame, m + 1, tf) then BlockOf(p, frame, m + 1, tf)[0]
    else if HasBlock(p, frame, m, tf) then BlockOf(p, frame, m, tf)[|BlockOf(p, frame, m, tf)| - 1]
    else frame[m]
  }

  lemma HoleOfBlock(p: Pass, frame: seq<Bar>, tf: Timeframe, identity: Identity, now: int, block: seq<Bar>)
    returns (h: nat)
    requires Ready(p, frame, tf, identity, now) && block in p.additions
    ensures Increasing(block) && block != [] && Fits(block, frame, h, tf)
  {
    assert Grounded(block, p.log, identity, tf, now) && FitsSome(block, frame, |frame|, tf);
    h :| 1 <= h < |frame| && Fits(block, frame, h, tf);
  }

  // The answers are in order and each fills a hole of the frame.
  ghost predicate Chain(parts: seq<seq<Bar>>, frame: seq<Bar>, tf: Timeframe) {
    && Increasing(frame) && InOrder(parts)
    && forall block | block in parts :: block != [] && Increasing(block) && FitsSome(block, frame, |frame|, tf)
  }

  lemma ReadyIsChain(p: Pass, frame: seq<Bar>, tf: Timeframe, identity: Identity, now: int)
    requires Ready(p, frame, tf, identity, now)
    ensures Chain(p.additions, frame, tf)
  {
    forall block | block in p.additions
      ensures block != [] && Increasing(block) && FitsSome(block, frame, |frame|, tf)
    {
      assert Grounded(block, p.log, identity, tf, now);
    }
  }

  lemma LaterBlock(p: Pass, frame: seq<Bar>, tf: Timeframe, i: nat, a: nat, m: nat, j: nat)
    requires Chain(p.additions, frame, tf) && a < m < |p.additions|
    requires Fits(p.additions[a], frame, i, tf) && j < |p.additions[a]|
    requires HasTime(p.additions[m], p.additions[a][j].time)
    ensures j == |p.additions[a]| - 1 && HasBlock(p, frame, i + 1, tf)
  {
    var block, later := p.additions[a], p.additions[m];
    assert block in p.additions && FitsSome(later, frame, |frame|, tf);
    var h: nat :| 1 <= h < |frame| && Fits(later, frame, h, tf);
    EndsInOrder(p.additions, a, m);
    SharedTime(frame, i, h, block, later, j, tf);
  }

  lemma EndsInOrder(parts: seq<seq<Bar>>, a: nat, m: nat)
    requires InOrder(parts) && a < m < |parts| && parts[a] != [] && parts[m] != []
    ensures parts[a][|parts[a]| - 1].time <= parts[m][0].time
  {}

  // A time that two blocks in order share is the last one of the first block, and they fill neighbouring holes.
  lemma SharedTime(frame: seq<Bar>, i: nat, h: nat, block: seq<Bar>, later: seq<Bar>, j: nat, tf: Timeframe)
    requires Increasing(frame) && Increasing(block) && Increasing(later) && block != [] && later != []
    requires block[|block| - 1].time <= later[0].time
    requires Fits(block, frame, i, tf) && Fits(later, frame, h, tf) && j < |block| && HasTime(later, block[j].time)
    ensures j == |block| - 1 && h == i + 1
  {
    BlockSpan(later, frame, h, block[j].time, tf);
    assert block[j] in block && HasTime(block, block[j].time);
    BlockSpan(block, frame, i, block[j].time, tf);
    SpansMeet(frame, i, h, block[j].time);
    assert frame[i - 1].time < frame[i].time;
  }

  lemma ValueFromBlock(p: Pass, frame: seq<Bar>, tf: Timeframe, identity: Identity, now: int, i: nat, block: seq<Bar>,
                       j: nat)
    requires Ready(p, frame, tf, identity, now) && block in p.additions && Fits(block, frame, i, tf) && j < |block|
    requires j < |block| - 1 || !HasBlock(p, frame, i + 1, tf)
    ensures block[j] in Repaired(p, frame, tf, now)
  {
    var t := block[j].time;
    var a :| 0 <= a < |p.additions| && p.additions[a] == block;
    assert Grounded(block, p.log, identity, tf, now);
    ReadyIsChain(p, frame, tf, identity, now);
    forall m | a < m < |p.additions| ensures !HasTime(p.additions[m], t) {
      if HasTime(p.additions[m], t) {
        LaterBlock(p, frame, tf, i, a, m, j);
      }
    }
    NewestInBlock(p.additions, a, j);
    RepairedMeaning(p, frame, tf, identity, now);
    NewestOf(Repaired(p, frame, tf, now), t);
  }

  lemma ValueFromFrame(p: Pass, frame: seq<Bar>, tf: Timeframe, identity: Identity, now: int, i: nat)
    requires Ready(p, frame, tf, identity, now) && i < |frame|
    requires forall block | block in p.additions :: !HasTime(block, frame[i].time)
    ensures frame[i] in Repaired(p, frame, tf, now)
  {
    var t := frame[i].time;
    RepairedMeaning(p, frame, tf, identity, now);
    IncreasingIsDistinct(frame);
    NewestAt(frame, i);
    NewestOf(Concat(p.additions), t);
    if t in Newest(Concat(p.additions)) {
      var b := Newest(Concat(p.additions))[t];
      ConcatMember(p.additions, b);
      assert false;
    }
    NewestOf(Repaired(p, frame, tf, now), t);
  }

  lemma RowAt(r: seq<Bar>, k: nat, b: Bar)
    requires Increasing(r) && k < |r| && b in r && b.time == r[k].time
    ensures r[k] == b
  {
    var j :| 0 <= j < |r| && r[j] == b;
    assert j < k || j == k || k < j;
  }

  // The two neighbouring rows are neighbours in the block that fills their hole.
  lemma NeighboursInBlock(p: Pass, frame: seq<Bar>, tf: Timeframe, identity: Identity, now: int, k: nat, i: nat,
                          block: seq<Bar>)
    returns (j: nat)
    requires Ready(p, frame, tf, identity, now) && k + 1 < |Repaired(p, frame, tf, now)|
    requires block in p.additions && Fits(block, frame, i, tf)
    requires var r := Repaired(p, frame, tf, now);
             frame[i - 1].time <= r[k].time < r[k + 1].time <= frame[i].time
    ensures j + 1 < |block|
    ensures var r := Repaired(p, frame, tf, now);
            block[j].time == r[k].time && block[j + 1].time == r[k + 1].time
  {
    var r := Repaired(p, frame, tf, now);
    RepairedMeaning(p, frame, tf, identity, now);
    assert Grounded(block, p.log, identity, tf, now);
    j := TimeInBlock(p, frame, tf, identity, now, k, i, block);
    var m := TimeInBlock(p, frame, tf, identity, now, k + 1, i, block);
    assert j < m;
    assert block[j + 1] in block && HasTime(block, block[j + 1].time);
    RepairedHas(p, frame, tf, identity, now, block[j + 1].time);
    NextRow(r, k, block[j + 1].time);
    AtMost(block, m, j + 1);
  }

  lemma AtMost(block: seq<Bar>, m: nat, j: nat)
    requires Increasing(block) && m < |block| && j <= m && block[m].time <= block[j].time
    ensures j == m
  {}

  lemma TimeInBlock(p: Pass, frame: seq<Bar>, tf: Timeframe, identity: Identity, now: int, k: nat, i: nat,
                    block: seq<Bar>)
    returns (j: nat)
    requires Ready(p, frame, tf, identity, now) && k < |Repaired(p, frame, tf, now)|
    requires block in p.additions && Fits(block, frame, i, tf)
    requires frame[i - 1].time <= Repaired(p, frame, tf, now)[k].time <= frame[i].time
    ensures j < |block| && block[j].time == Repaired(p, frame, tf, now)[k].time
  {
    var t := Repaired(p, frame, tf, now)[k].time;
    assert Repaired(p, frame, tf, now)[k] in Repaired(p, frame, tf, now);
    InHole(p, frame, tf, identity, now, t, i);
    if t == frame[i - 1].time {
      j := 0;
    } else if t == frame[i].time {
      j := |block| - 1;
    } else {
      SameBlock(p, frame, tf, i, t, block);
      j := RowOf(block, t);
    }
  }

  lemma SameBlock(p: Pass, frame: seq<Bar>, tf: Timeframe, i: nat, t: int, block: seq<Bar>)
    requires Increasing(frame) && InOrder(p.additions) && InBlock(p, frame, i, t, tf)
    requires block in p.additions && Fits(block, frame, i, tf)
    ensures HasTime(block, t)
  {
    var other :| other in p.additions && Fits(other, frame, i, tf) && HasTime(other, t);
    var a :| 0 <= a < |p.additions| && p.additions[a] == block;
    var b :| 0 <= b < |p.additions| && p.additions[b] == other;
    OneBlock(p, frame, tf, i, a, b);
  }

  lemma PrevailingIsThere(p: Pass, frame: seq<Bar>, tf: Timeframe, identity: Identity, now: int, m: nat)
    requires Ready(p, frame, tf, identity, now) && m < |frame|
    ensures Prevailing(p, frame, m, tf) in Repaired(p, frame, tf, now)
    ensures Prevailing(p, frame, m, tf).time == frame[m].time
  {
    if HasBlock(p, frame, m + 1, tf) {
      FirstIsThere(p, frame, tf, identity, now, m + 1);
    } else if HasBlock(p, frame, m, tf) {
      LastIsThere(p, frame, tf, identity, now, m);
    } else {
      NoBlockAt(p, frame, tf, identity, now, m);
      ValueFromFrame(p, frame, tf, identity, now, m);
    }
  }

  lemma FirstIsThere(p: Pass, frame: seq<Bar>, tf: Timeframe, identity: Identity, now: int, i: nat)
    requires Ready(p, frame, tf, identity, now) && HasBlock(p, frame, i, tf)
    ensures var block := BlockOf(p, frame, i, tf);
            block != [] && block[0] in Repaired(p, frame, tf, now) && block[0].time == frame[i - 1].time
  {
    var block := BlockOf(p, frame, i, tf);
    assert frame[i - 1].time < frame[i].time;
    ValueFromBlock(p, frame, tf, identity, now, i, block, 0);
  }

  lemma LastIsThere(p: Pass, frame: seq<Bar>, tf: Timeframe, identity: Identity, now: int, i: nat)
    requires Ready(p, frame, tf, identity, now) && HasBlock(p, frame, i, tf) && !HasBlock(p, frame, i + 1, tf)
    ensures var block := BlockOf(p, frame, i, tf);
            && block != [] && block[|block| - 1] in Repaired(p, frame, tf, now)
            && block[|block| - 1].time == frame[i].time
  {
    var block := BlockOf(p, frame, i, tf);
    ValueFromBlock(p, frame, tf, identity, now, i, block, |block| - 1);
  }

  lemma NoBlockAt(p: Pass, frame: seq<Bar>, tf: Timeframe, identity: Identity, now: int, m: nat)
    requires Ready(p, frame, tf, identity, now) && m < |frame|
    requires !HasBlock(p, frame, m + 1, tf) && !HasBlock(p, frame, m, tf)
    ensures forall block | block in p.additions :: !HasTime(block, frame[m].time)
  {
    forall block | block in p.additions ensures !HasTime(block, frame[m].time) {
      assert FitsSome(block, frame, |frame|, tf);
      var h: nat :| 1 <= h < |frame| && Fits(block, frame, h, tf);
      assert HasBlock(p, frame, h, tf);
      if HasTime(block, frame[m].time) {
        assert InBlock(p, frame, h, frame[m].time, tf);
        InBlockSpan(p, frame, tf, identity, now, h, frame[m].time);
        RowInSpan(frame, h, m);
        assert false;
      }
    }
  }

  /** Where the sources disagree, the repaired frame follows exactly one of them; where they agree, it follows both. */
  lemma PrevailingFollows(p: Pass, frame: seq<Bar>, tf: Timeframe, m: nat)
    requires 1 <= m < |frame| - 1 && IsHole(frame[m - 1], frame[m], tf) && IsHole(frame[m], frame[m + 1], tf)
    ensures var c := CornerOf(Prevailing(p, frame, m, tf));
            && (Agree(p, frame, m, tf) <==>
                  c == CornerOf(RightRow(p, frame, m, tf)) && c == CornerOf(LeftRow(p, frame, m + 1, tf)))
            && (c == CornerOf(RightRow(p, frame, m, tf)) || c == CornerOf(LeftRow(p, frame, m + 1, tf)))
  {}

  // The answer of the hole before row i is overruled at its left or at its right row.
  ghost predicate LosesLeft(p: Pass, frame: seq<Bar>, i: nat, tf: Timeframe) {
    1 <= i < |frame| && !HasBlock(p, frame, i, tf) && !Agree(p, frame, i - 1, tf)
  }

  ghost predicate LosesRight(p: Pass, frame: seq<Bar>, i: nat, tf: Timeframe) {
    1 <= i < |frame| && HasBlock(p, frame, i + 1, tf) && !Agree(p, frame, i, tf)
  }

  /** At a row where they disagree exactly one of the two answers is overruled, at any other row none. */
  lemma DisagreementOverrulesOne(p: Pass, frame: seq<Bar>, tf: Timeframe, m: nat)
    requires 1 <= m < |frame| - 1
    ensures !Agree(p, frame, m, tf) <==> LosesRight(p, frame, m, tf) || LosesLeft(p, frame, m + 1, tf)
    ensures !(LosesRight(p, frame, m, tf) && LosesLeft(p, frame, m + 1, tf))
  {}

  lemma LeftCorner(p: Pass, frame: seq<Bar>, tf: Timeframe, i: nat)
    requires 1 <= i < |frame| && IsHole(frame[i - 1], frame[i], tf)
    ensures CornerOf(Prevailing(p, frame, i - 1, tf)) == CornerOf(LeftRow(p, frame, i, tf))
            <==> !LosesLeft(p, frame, i, tf)
  {}

  lemma RightCorner(p: Pass, frame: seq<Bar>, tf: Timeframe, i: nat)
    requires 1 <= i < |frame| && IsHole(frame[i - 1], frame[i], tf)
    ensures CornerOf(Prevailing(p, frame, i, tf)) == CornerOf(RightRow(p, frame, i, tf))
            <==> !LosesRight(p, frame, i, tf)
  {}

  // Two neighbouring rows of the answer to the hole before row i.
  ghost predicate OwnPair(p: Pass, frame: seq<Bar>, i: nat, own: Signature, tf: Timeframe)
    requires 1 <= i < |frame|
  {
    if HasBlock(p, frame, i, tf) then
      var block := BlockOf(p, frame, i, tf);
      exists j: nat :: j + 1 < |block| && own == SignatureOf(block[j], block[j + 1])
    else own == SignatureOf(frame[i - 1], frame[i])
  }

  // The pair of the repaired frame is its answer's pair, unless that is overruled at a row where another answer begins.
  ghost predicate FollowsAnswer(p: Pass, frame: seq<Bar>, i: nat, a: Bar, b: Bar, tf: Timeframe)
    requires 1 <= i < |frame|
  {
    && !(a.time == frame[i - 1].time && LosesLeft(p, frame, i, tf))
    && !(b.time == frame[i].time && LosesRight(p, frame, i, tf))
  }

  /** Every hole of the repaired frame lies where its own answer has two neighbouring bars in the log; it consists of
      exactly these bars unless its answer is overruled at one of them. */
  lemma HoleIsItsAnswerIff(p: Pass, frame: seq<Bar>, tf: Timeframe, identity: Identity, now: int, k: nat)
    returns (i: nat, own: Signature)
    requires Ready(p, frame, tf, identity, now) && k + 1 < |Repaired(p, frame, tf, now)|
    requires var r := Repaired(p, frame, tf, now); IsHole(r[k], r[k + 1], tf)
    ensures 1 <= i < |frame| && OwnPair(p, frame, i, own, tf) && BackedBars(p.log, identity, own)
    ensures var r := Repaired(p, frame, tf, now);
            && frame[i - 1].time <= r[k].time == own.left.time && own.right.time == r[k + 1].time <= frame[i].time
            && (SignatureOf(r[k], r[k + 1]) == own <==> FollowsAnswer(p, frame, i, r[k], r[k + 1], tf))
  {
    var r := Repaired(p, frame, tf, now);
    RepairedMeaning(p, frame, tf, identity, now);
    i := WithinOneHole(p, frame, tf, identity, now, k);
    assert Answered(p, frame, i, identity, tf);
    if HasBlock(p, frame, i, tf) {
      var j := NeighboursInBlock(p, frame, tf, identity, now, k, i, BlockOf(p, frame, i, tf));
      own := FilledHole(p, frame, tf, identity, now, k, i, j);
    } else {
      RememberedTimes(p, frame, tf, identity, now, k, i);
      RememberedRows(p, frame, tf, identity, now, k, i);
      RememberedFollows(p, frame, tf, i, r[k], r[k + 1]);
      own := SignatureOf(frame[i - 1], frame[i]);
    }
  }

  lemma FilledLeft(p: Pass, frame: seq<Bar>, tf: Timeframe, identity: Identity, now: int, k: nat, i: nat, j: nat)
    requires Ready(p, frame, tf, identity, now) && k < |Repaired(p, frame, tf, now)| && HasBlock(p, frame, i, tf)
    requires var block := BlockOf(p, frame, i, tf);
             j + 1 < |block| && block[j].time == Repaired(p, frame, tf, now)[k].time
    ensures Repaired(p, frame, tf, now)[k] == BlockOf(p, frame, i, tf)[j]
  {
    RepairedMeaning(p, frame, tf, identity, now);
    ValueFromBlock(p, frame, tf, identity, now, i, BlockOf(p, frame, i, tf), j);
    RowAt(Repaired(p, frame, tf, now), k, BlockOf(p, frame, i, tf)[j]);
  }

  lemma FilledRight(p: Pass, frame: seq<Bar>, tf: Timeframe, identity: Identity, now: int, k: nat, i: nat, j: nat)
    requires Ready(p, frame, tf, identity, now) && k < |Repaired(p, frame, tf, now)| && HasBlock(p, frame, i, tf)
    requires var block := BlockOf(p, frame, i, tf);
             j < |block| && block[j].time == Repaired(p, frame, tf, now)[k].time
    ensures var r, block := Repaired(p, frame, tf, now), BlockOf(p, frame, i, tf);
            CornerOf(r[k]) == CornerOf(block[j]) <==> !(r[k].time == frame[i].time && LosesRight(p, frame, i, tf))
  {
    var block := BlockOf(p, frame, i, tf);
    var h := HoleOfBlock(p, frame, tf, identity, now, block);
    if j + 1 == |block| {
      RightCorner(p, frame, tf, i);
      RepairedAt(p, frame, tf, identity, now, k, i);
    } else {
      FilledLeft(p, frame, tf, identity, now, k, i, j);
      assert block[j].time < block[|block| - 1].time;
    }
  }

  lemma FilledHole(p: Pass, frame: seq<Bar>, tf: Timeframe, identity: Identity, now: int, k: nat, i: nat, j: nat)
    returns (own: Signature)
    requires Ready(p, frame, tf, identity, now) && k + 1 < |Repaired(p, frame, tf, now)| && HasBlock(p, frame, i, tf)
    requires var r, block := Repaired(p, frame, tf, now), BlockOf(p, frame, i, tf);
             j + 1 < |block| && block[j].time == r[k].time && block[j + 1].time == r[k + 1].time
    ensures OwnPair(p, frame, i, own, tf) && BackedBars(p.log, identity, own)
    ensures var r := Repaired(p, frame, tf, now);
            && own.left.time == r[k].time && own.right.time == r[k + 1].time
            && (SignatureOf(r[k], r[k + 1]) == own <==> FollowsAnswer(p, frame, i, r[k], r[k + 1], tf))
  {
    var block := BlockOf(p, frame, i, tf);
    own := SignatureOf(block[j], block[j + 1]);
    BlockPairIsBacked(p, frame, tf, identity, now, block, j);
    FilledLeft(p, frame, tf, identity, now, k, i, j);
    FilledRight(p, frame, tf, identity, now, k + 1, i, j + 1);
  }

  lemma BlockPairIsBacked(p: Pass, frame: seq<Bar>, tf: Timeframe, identity: Identity, now: int, block: seq<Bar>,
                          j: nat)
    requires Ready(p, frame, tf, identity, now) && block in p.additions && j + 1 < |block|
    ensures BackedBars(p.log, identity, SignatureOf(block[j], block[j + 1]))
  {
    assert Grounded(block, p.log, identity, tf, now);
    GroundedNeighbours(block, p.log, identity, tf, now, j);
  }

  // With no answer added for its hole, a row of the repaired frame there is one of the two it had.
  lemma RememberedTime(p: Pass, frame: seq<Bar>, tf: Timeframe, identity: Identity, now: int, k: nat, i: nat)
    requires Ready(p, frame, tf, identity, now) && k < |Repaired(p, frame, tf, now)| && 1 <= i < |frame|
    requires frame[i - 1].time <= Repaired(p, frame, tf, now)[k].time <= frame[i].time && !HasBlock(p, frame, i, tf)
    ensures var t := Repaired(p, frame, tf, now)[k].time; t == frame[i - 1].time || t == frame[i].time
  {
    var r := Repaired(p, frame, tf, now);
    assert r[k] in r;
    InHole(p, frame, tf, identity, now, r[k].time, i);
  }

  lemma RememberedTimes(p: Pass, frame: seq<Bar>, tf: Timeframe, identity: Identity, now: int, k: nat, i: nat)
    requires Ready(p, frame, tf, identity, now) && k + 1 < |Repaired(p, frame, tf, now)| && 1 <= i < |frame|
    requires var r := Repaired(p, frame, tf, now);
             IsHole(r[k], r[k + 1], tf) && frame[i - 1].time <= r[k].time < r[k + 1].time <= frame[i].time
    requires !HasBlock(p, frame, i, tf)
    ensures var r := Repaired(p, frame, tf, now);
            && r[k].time == frame[i - 1].time && r[k + 1].time == frame[i].time
            && IsHole(frame[i - 1], frame[i], tf)
  {
    RememberedTime(p, frame, tf, identity, now, k, i);
    RememberedTime(p, frame, tf, identity, now, k + 1, i);
  }

  lemma RememberedRows(p: Pass, frame: seq<Bar>, tf: Timeframe, identity: Identity, now: int, k: nat, i: nat)
    requires Ready(p, frame, tf, identity, now) && k + 1 < |Repaired(p, frame, tf, now)| && 1 <= i < |frame|
    requires var r := Repaired(p, frame, tf, now); r[k].time == frame[i - 1].time && r[k + 1].time == frame[i].time
    ensures var r := Repaired(p, frame, tf, now);
            r[k] == Prevailing(p, frame, i - 1, tf) && r[k + 1] == Prevailing(p, frame, i, tf)
  {
    RepairedAt(p, frame, tf, identity, now, k, i - 1);
    RepairedAt(p, frame, tf, identity, now, k + 1, i);
  }

  lemma RepairedAt(p: Pass, frame: seq<Bar>, tf: Timeframe, identity: Identity, now: int, k: nat, m: nat)
    requires Ready(p, frame, tf, identity, now) && k < |Repaired(p, frame, tf, now)| && m < |frame|
    requires Repaired(p, frame, tf, now)[k].time == frame[m].time
    ensures Repaired(p, frame, tf, now)[k] == Prevailing(p, frame, m, tf)
  {
    RepairedMeaning(p, frame, tf, identity, now);
    PrevailingIsThere(p, frame, tf, identity, now, m);
    RowAt(Repaired(p, frame, tf, now), k, Prevailing(p, frame, m, tf));
  }

  lemma RememberedHole(p: Pass, frame: seq<Bar>, tf: Timeframe, i: nat)
    requires 1 <= i < |frame| && IsHole(frame[i - 1], frame[i], tf) && !HasBlock(p, frame, i, tf)
    ensures var a, b := Prevailing(p, frame, i - 1, tf), Prevailing(p, frame, i, tf);
            && (CornerOf(a) == CornerOf(frame[i - 1]) <==> !LosesLeft(p, frame, i, tf))
            && (CornerOf(b) == CornerOf(frame[i]) <==> !LosesRight(p, frame, i, tf))
  {
    LeftCorner(p, frame, tf, i);
    RightCorner(p, frame, tf, i);
  }

  lemma RememberedFollows(p: Pass, frame: seq<Bar>, tf: Timeframe, i: nat, a: Bar, b: Bar)
    requires 1 <= i < |frame| && IsHole(frame[i - 1], frame[i], tf) && !HasBlock(p, frame, i, tf)
    requires a == Prevailing(p, frame, i - 1, tf) && a.time == frame[i - 1].time
    requires b == Prevailing(p, frame, i, tf) && b.time == frame[i].time
    ensures (SignatureOf(a, b) == SignatureOf(frame[i - 1], frame[i])) <==> FollowsAnswer(p, frame, i, a, b, tf)
  {
    RememberedHole(p, frame, tf, i);
  }

  /** So a hole is backed as bars unless the sources that meet at one of its rows disagree, and as times in any case. */
  lemma HoleIsBacked(p: Pass, frame: seq<Bar>, tf: Timeframe, identity: Identity, now: int, k: nat)
    requires Ready(p, frame, tf, identity, now) && k + 1 < |Repaired(p, frame, tf, now)|
    requires var r := Repaired(p, frame, tf, now); IsHole(r[k], r[k + 1], tf)
    ensures var r := Repaired(p, frame, tf, now);
            && BackedTimes(p.log, identity, r[k].time, r[k + 1].time)
            && (BackedBars(p.log, identity, SignatureOf(r[k], r[k + 1]))
                || DisagreesAt(p, frame, r[k].time, tf) || DisagreesAt(p, frame, r[k + 1].time, tf))
  {
    var i, own := HoleIsItsAnswerIff(p, frame, tf, identity, now, k);
    BarsBackTimes(p.log, identity, own);
  }

  // ---- Over refreshes ----

  /** Staged rows of a memory are answers of the broker, whatever happened since. */
  ghost predicate SoundStore(m: Memory, log: seq<Response>, tf: Timeframe, now: int) {
    m.staging.Some? ==> SoundStaging(m.staging.value.entries, log, m.staging.value.identity, tf, now)
  }

  lemma {:induction false} KeepingMembers(staged: seq<Entry>, signatures: set<Signature>)
    ensures forall e :: e in Keeping(staged, signatures) <==> e in staged && e.signature in signatures
  {
    if staged != [] {
      KeepingMembers(staged[..|staged| - 1], signatures);
      assert staged == staged[..|staged| - 1] + [staged[|staged| - 1]];
    }
  }

  ghost predicate AllGrounded(blocks: seq<seq<Bar>>, log: seq<Response>, identity: Identity, tf: Timeframe, now: int) {
    forall block | block in blocks :: Grounded(block, log, identity, tf, now)
  }

  lemma VisitKeepsStaging(p: Pass, left: Bar, right: Bar, tf: Timeframe, identity: Identity, limit: nat, turn: Turn,
                          now: int)
    requires turn.now <= now && SoundStaging(p.staged, p.log, identity, tf, now)
    requires AllGrounded(p.additions, p.log, identity, tf, now)
    ensures var q := Visit(p, left, right, tf, identity, limit, turn).pass;
            SoundStaging(q.staged, q.log, identity, tf, now) && AllGrounded(q.additions, q.log, identity, tf, now)
            && p.log <= q.log
  {
    var q := Visit(p, left, right, tf, identity, limit, turn).pass;
    VisitStaging(p, left, right, tf, identity, limit, turn);
    LongerLog(p.log, q.log, identity, tf, now);
    LookupMeaning(p.staged, SignatureOf(left, right));
    if Checked(left, right, tf, identity, turn).Ok? {
      CheckedIsGrounded(left, right, tf, identity, turn, p.log, now);
    }
  }

  lemma VisitStaging(p: Pass, left: Bar, right: Bar, tf: Timeframe, identity: Identity, limit: nat, turn: Turn)
    ensures var q := Visit(p, left, right, tf, identity, limit, turn).pass;
            var found := Checked(left, right, tf, identity, turn);
            var sig := SignatureOf(left, right);
            && p.log <= q.log
            && (q.staged == p.staged
                || (found.Ok? && q.log == Logged(p.log, identity, turn)
                    && q.staged == p.staged + [Entry(sig, found.value)]))
            && (q.additions == p.additions
                || (Lookup(p.staged, sig).Some? && q.additions == p.additions + [Lookup(p.staged, sig).value])
                || (found.Ok? && q.log == Logged(p.log, identity, turn) && q.additions == p.additions + [found.value]))
  {
    var sig := SignatureOf(left, right);
    if Lookup(p.staged, sig).None? && sig !in p.remembered && p.calls < CALL_BUDGET && !turn.expired
       && right.time - left.time <= MaxSpan(tf, limit) {
      assert Visit(p, left, right, tf, identity, limit, turn) == Ask(p, left, right, tf, identity, limit, turn);
    }
  }

  lemma {:induction false} WalkKeepsStaging(p: Pass, frame: seq<Bar>, n: nat, tf: Timeframe, identity: Identity,
                                            limit: nat, turns: nat -> Turn, now: int)
    requires n <= |frame| && ClocksUpTo(turns, now) && SoundStaging(p.staged, p.log, identity, tf, now)
    requires AllGrounded(p.additions, p.log, identity, tf, now)
    ensures var q := Walk(p, frame, n, tf, identity, limit, turns).pass;
            SoundStaging(q.staged, q.log, identity, tf, now) && AllGrounded(q.additions, q.log, identity, tf, now)
            && p.log <= q.log
  {
    if n > 1 {
      WalkKeepsStaging(p, frame, n - 1, tf, identity, limit, turns, now);
      var w := Walk(p, frame, n - 1, tf, identity, limit, turns);
      if w.Went? && IsHole(frame[n - 2], frame[n - 1], tf) {
        VisitKeepsStaging(w.pass, frame[n - 2], frame[n - 1], tf, identity, limit, turns(n - 1), now);
      }
    }
  }

  lemma BeginIsSound(m: Memory, frame: seq<Bar>, tf: Timeframe, identity: Identity, clock: Clock, log: seq<Response>,
                     now: int)
    requires SoundStore(m, log, tf, now)
    ensures SoundStaging(Begin(m, frame, tf, identity, clock, log).staged, log, identity, tf, now)
  {
    if StagingCurrent(m, identity, clock) {
      KeepingMembers(m.staging.value.entries, AllHoles(frame, tf));
    }
  }

  /** Whatever a refresh ends in, what it stages stays a faithful copy of answers. */
  lemma RefreshKeepsStore(m: Memory, frame: seq<Bar>, tf: Timeframe, identity: Identity, retention: nat, clock: Clock,
                          turns: nat -> Turn, now: int, log: seq<Response>)
    requires ClocksUpTo(turns, now) && SoundStore(m, log, tf, now)
    ensures var after := Refresh(m, frame, tf, identity, retention, clock, turns, now, log);
            SoundStore(after.memory, after.log, tf, now) && log <= after.log
  {
    BeginIsSound(m, frame, tf, identity, clock, log, now);
    WalkKeepsStaging(Begin(m, frame, tf, identity, clock, log), frame, |frame|, tf, identity, retention * 32, turns,
                     now);
  }

  predicate RowsOf(s: seq<Bar>, source: string, tf: Timeframe) {
    forall b | b in s :: b.source == source && SoundBar(b, tf)
  }

  /** A frame a refresh returns is in order, closed and made of sound rows of the one source, like the frame it was
      given. */
  lemma RefreshKeepsRows(m: Memory, frame: seq<Bar>, tf: Timeframe, identity: Identity, retention: nat, clock: Clock,
                         turns: nat -> Turn, now: int, log: seq<Response>)
    requires ClocksUpTo(turns, now) && SoundStore(m, log, tf, now)
    requires Increasing(frame) && AllClosed(frame, tf, now) && RowsOf(frame, identity.symbol, tf)
    requires Refresh(m, frame, tf, identity, retention, clock, turns, now, log).outcome.Ok?
    ensures var r := Refresh(m, frame, tf, identity, retention, clock, turns, now, log).outcome.value;
            Increasing(r) && AllClosed(r, tf, now) && RowsOf(r, identity.symbol, tf)
  {
    var p := Begin(m, frame, tf, identity, clock, log);
    BeginIsSound(m, frame, tf, identity, clock, log, now);
    WalkKeepsStaging(p, frame, |frame|, tf, identity, retention * 32, turns, now);
    WalkStarts(m, frame, tf, identity, retention, clock, turns, now, log);
    var q := Walk(p, frame, |frame|, tf, identity, retention * 32, turns).pass;
    MergeMeaning(frame, Concat(q.additions), tf, now);
    forall b | b in Concat(q.additions) ensures b.source == identity.symbol && SoundBar(b, tf) {
      ConcatMember(q.additions, b);
      var block :| block in q.additions && b in block;
      assert Grounded(block, q.log, identity, tf, now);
    }
  }

  /** What must hold of the remembered signatures for a refresh to be sound. */
  ghost predicate SoundOnEntry(m: Memory, frame: seq<Bar>, tf: Timeframe, identity: Identity, clock: Clock,
                               log: seq<Response>) {
    var p := Begin(m, frame, tf, identity, clock, log);
    SoundMemory(p.staged, p.remembered, AllHoles(frame, tf), log, identity)
  }

  // What a refresh knows when it ends: answers added, signatures remembered, the log of responses.
  function EndOf(m: Memory, frame: seq<Bar>, tf: Timeframe, identity: Identity, retention: nat, clock: Clock,
                 turns: nat -> Turn, log: seq<Response>): Pass {
    Walk(Begin(m, frame, tf, identity, clock, log), frame, |frame|, tf, identity, retention * 32, turns).pass
  }

  // A refresh that starts from a sound memory and succeeds.
  ghost predicate SoundRefresh(m: Memory, frame: seq<Bar>, tf: Timeframe, identity: Identity, retention: nat,
                               clock: Clock, turns: nat -> Turn, now: int, log: seq<Response>) {
    && Increasing(frame) && AllClosed(frame, tf, now) && ClocksUpTo(turns, now)
    && SoundStore(m, log, tf, now) && SoundOnEntry(m, frame, tf, identity, clock, log)
    && Refresh(m, frame, tf, identity, retention, clock, turns, now, log).outcome.Ok?
  }

  lemma RefreshIsReady(m: Memory, frame: seq<Bar>, tf: Timeframe, identity: Identity, retention: nat, clock: Clock,
                       turns: nat -> Turn, now: int, log: seq<Response>)
    requires SoundRefresh(m, frame, tf, identity, retention, clock, turns, now, log)
    ensures var q := EndOf(m, frame, tf, identity, retention, clock, turns, log);
            var after := Refresh(m, frame, tf, identity, retention, clock, turns, now, log);
            Ready(q, frame, tf, identity, now) && after.outcome.value == Repaired(q, frame, tf, now)
            && after.log == q.log
  {
    var p := Begin(m, frame, tf, identity, clock, log);
    BeginIsSound(m, frame, tf, identity, clock, log, now);
    assert SoundPass(p, frame, 0, identity, tf, now) by {
      assert SoundAdditions(p, frame, 0, identity, tf, now);
    }
    WalkKeeps(p, frame, |frame|, tf, identity, retention * 32, turns, now);
    WalkStarts(m, frame, tf, identity, retention, clock, turns, now, log);
  }

  /** Every hole of the frame a refresh returns lies between two neighbouring times of one answer given for the same
      broker symbol and generation; its bars are neighbouring bars of one answer unless, at one of them, the two sources
      that meet there disagree. */
  lemma EveryHoleIsTheBrokers(m: Memory, frame: seq<Bar>, tf: Timeframe, identity: Identity, retention: nat,
                              clock: Clock, turns: nat -> Turn, now: int, log: seq<Response>, k: nat)
    requires SoundRefresh(m, frame, tf, identity, retention, clock, turns, now, log)
    requires var r := Refresh(m, frame, tf, identity, retention, clock, turns, now, log).outcome.value;
             k + 1 < |r| && IsHole(r[k], r[k + 1], tf)
    ensures var after := Refresh(m, frame, tf, identity, retention, clock, turns, now, log);
            var r := after.outcome.value;
            var q := EndOf(m, frame, tf, identity, retention, clock, turns, log);
            && BackedTimes(after.log, identity, r[k].time, r[k + 1].time)
            && (BackedBars(after.log, identity, SignatureOf(r[k], r[k + 1]))
                || DisagreesAt(q, frame, r[k].time, tf) || DisagreesAt(q, frame, r[k + 1].time, tf))
  {
    RefreshIsReady(m, frame, tf, identity, retention, clock, turns, now, log);
    HoleIsBacked(EndOf(m, frame, tf, identity, retention, clock, turns, log), frame, tf, identity, now, k);
  }

  /** Each hole of the returned frame has an answer of its own in the log, with two neighbouring bars at the hole's
      times; the hole is exactly these two bars unless its answer is overruled at one of its rows by another source. */
  lemma EveryHoleIsItsAnswerIff(m: Memory, frame: seq<Bar>, tf: Timeframe, identity: Identity, retention: nat,
                                clock: Clock, turns: nat -> Turn, now: int, log: seq<Response>, k: nat)
    returns (i: nat, own: Signature)
    requires SoundRefresh(m, frame, tf, identity, retention, clock, turns, now, log)
    requires var r := Refresh(m, frame, tf, identity, retention, clock, turns, now, log).outcome.value;
             k + 1 < |r| && IsHole(r[k], r[k + 1], tf)
    ensures var after := Refresh(m, frame, tf, identity, retention, clock, turns, now, log);
            var r := after.outcome.value;
            var q := EndOf(m, frame, tf, identity, retention, clock, turns, log);
            && 1 <= i < |frame| && OwnPair(q, frame, i, own, tf) && BackedBars(after.log, identity, own)
            && frame[i - 1].time <= r[k].time == own.left.time && own.right.time == r[k + 1].time <= frame[i].time
            && (SignatureOf(r[k], r[k + 1]) == own <==> FollowsAnswer(q, frame, i, r[k], r[k + 1], tf))
  {
    RefreshIsReady(m, frame, tf, identity, retention, clock, turns, now, log);
    var q := EndOf(m, frame, tf, identity, retention, clock, turns, log);
    i, own := HoleIsItsAnswerIff(q, frame, tf, identity, now, k);
  }

  /** Of the two answers that meet at a row of the returned frame, it keeps both exactly when they agree there;
      otherwise one of them is contradicted by the frame and the other is not. */
  lemma SharedRowsFollowAnswers(m: Memory, frame: seq<Bar>, tf: Timeframe, identity: Identity, retention: nat,
                                clock: Clock,
                                turns: nat -> Turn, now: int, log: seq<Response>, row: nat) returns (at: nat)
    requires SoundRefresh(m, frame, tf, identity, retention, clock, turns, now, log)
    requires 1 <= row < |frame| - 1 && IsHole(frame[row - 1], frame[row], tf) && IsHole(frame[row], frame[row + 1], tf)
    ensures var r := Refresh(m, frame, tf, identity, retention, clock, turns, now, log).outcome.value;
            var q := EndOf(m, frame, tf, identity, retention, clock, turns, log);
            && at < |r| && r[at].time == frame[row].time
            && (Agree(q, frame, row, tf) <==>
                  CornerOf(r[at]) == CornerOf(RightRow(q, frame, row, tf)) == CornerOf(LeftRow(q, frame, row + 1, tf)))
            && (CornerOf(r[at]) == CornerOf(RightRow(q, frame, row, tf))
                || CornerOf(r[at]) == CornerOf(LeftRow(q, frame, row + 1, tf)))
  {
    RefreshIsReady(m, frame, tf, identity, retention, clock, turns, now, log);
    var q := EndOf(m, frame, tf, identity, retention, clock, turns, log);
    var r := Refresh(m, frame, tf, identity, retention, clock, turns, now, log).outcome.value;
    PrevailingIsThere(q, frame, tf, identity, now, row);
    PrevailingFollows(q, frame, tf, row);
    at :| 0 <= at < |r| && r[at] == Prevailing(q, frame, row, tf);
  }

  lemma WalkStarts(m: Memory, frame: seq<Bar>, tf: Timeframe, identity: Identity, retention: nat, clock: Clock,
                   turns: nat -> Turn, now: int, log: seq<Response>)
    ensures var w := Walk(Begin(m, frame, tf, identity, clock, log), frame, |frame|, tf, identity, retention * 32,
                          turns);
            var after := Refresh(m, frame, tf, identity, retention, clock, turns, now, log);
            && (after.outcome.Ok? <==> w.Went?) && after.log == w.pass.log
            && (w.Went? ==> after.outcome == Ok(Repaired(w.pass, frame, tf, now)))
            && (w.Stopped? ==> after.outcome == Err(w.error))
  {}
}
