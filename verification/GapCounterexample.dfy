/** Why holes are backed by times and not always by whole bars: two answers may revise the row they share. */
module GapCounterexample {
  import opened Wrappers
  import opened Bars
  import opened Validation
  import opened Gaps
  import opened GapSoundness
  import opened GapTheorems

  function RawOf(b: Bar): Raw {
    Raw(Some(b.time), Some(b.open), Some(b.high), Some(b.low), Some(b.close), Some(b.volume))
  }

  ghost predicate Usable(b: Bar, tf: Timeframe, identity: Identity, now: int) {
    SoundBar(b, tf) && Closed(b, tf, now) && b.source == identity.symbol
  }

  // A broker that answers a range with its two boundaries and nothing between them.
  function Pair(x: Bar, y: Bar): seq<Raw> { [RawOf(x), RawOf(y)] }

  function Answer(x: Bar, y: Bar, identity: Identity, now: int): Turn {
    Turn(false, Replied(identity, Rates(Pair(x, y), true)), now)
  }

  lemma PairIsValid(x: Bar, y: Bar, tf: Timeframe, identity: Identity, now: int)
    requires Usable(x, tf, identity, now) && Usable(y, tf, identity, now) && x.time < y.time
    ensures ValidateBars(Pair(x, y), true, identity.symbol, tf, now) == Ok([x, y])
  {
    var rows := Pair(x, y);
    assert Fault(rows, true, tf).None?;
    assert rows[1..] == [RawOf(y)] && rows[1..][1..] == [];
    FaultFree(rows, true, identity.symbol, tf);
    var bars := ToBars(rows, identity.symbol);
    assert bars == [x, y];
    KeepClosedOfClosed(bars, tf, now);
    assert bars[1..] == [y] && bars[1..][1..] == [];
    assert SortByTime([]) == [];
    assert SortByTime([y]) == [y];
  }

  lemma TwoRowsAccepted(p: Pass, left: Bar, right: Bar, x: Bar, y: Bar, tf: Timeframe, identity: Identity, limit: nat,
                        now: int)
    requires Usable(x, tf, identity, now) && Usable(y, tf, identity, now)
    requires IsHole(left, right, tf) && left.time == x.time && right.time == y.time
    requires right.time - left.time <= MaxSpan(tf, limit) && RowCount(p.staged) + 2 <= limit && p.calls < CALL_BUDGET
    requires Lookup(p.staged, SignatureOf(left, right)).None? && SignatureOf(left, right) !in p.remembered
    ensures var v := Visit(p, left, right, tf, identity, limit, Answer(x, y, identity, now));
            && v.Went? && v.pass.additions == p.additions + [[x, y]] && v.pass.calls == p.calls + 1
            && v.pass.log == p.log + [Response(identity, Pair(x, y))]
            && (v.pass.staged == p.staged || v.pass.staged == p.staged + [Entry(SignatureOf(left, right), [x, y])])
            && v.pass.remembered <= p.remembered + {SignatureOf(left, right), SignatureOf(x, y)}
  {
    PairIsValid(x, y, tf, identity, now);
    assert Holes([x, y], 2, tf) <= {SignatureOf(x, y)} by {
      assert Holes([x, y], 1, tf) == {};
    }
  }

  // A first refresh over three rows with a hole on either side of the middle one.
  function Script(a: Bar, first: Bar, second: Bar, c: Bar, identity: Identity, now: int): nat -> Turn {
    (i: nat) => if i == 1 then Answer(a, first, identity, now) else Answer(second, c, identity, now)
  }

  ghost predicate SharedRowRevised(a: Bar, b: Bar, c: Bar, first: Bar, second: Bar, tf: Timeframe, identity: Identity,
                                   retention: nat, now: int) {
    && Usable(a, tf, identity, now) && Usable(c, tf, identity, now)
    && Usable(first, tf, identity, now) && Usable(second, tf, identity, now) && Closed(b, tf, now)
    && first.time == b.time && second.time == b.time && CornerOf(first) != CornerOf(second)
    && IsHole(a, b, tf) && IsHole(b, c, tf) && retention >= 1
    && b.time - a.time <= MaxSpan(tf, retention * 32) && c.time - b.time <= MaxSpan(tf, retention * 32)
  }

  const NOTHING: Memory := Memory(None, None)

  lemma TwoVisits(a: Bar, b: Bar, c: Bar, first: Bar, second: Bar, tf: Timeframe, identity: Identity, retention: nat,
                  clock: Clock, now: int)
    requires SharedRowRevised(a, b, c, first, second, tf, identity, retention, now)
    ensures var w := Walk(Begin(NOTHING, [a, b, c], tf, identity, clock, []), [a, b, c], 3, tf, identity,
                          retention * 32,
                          Script(a, first, second, c, identity, now));
            && w.Went? && w.pass.additions == [[a, first], [second, c]]
            && w.pass.log == [Response(identity, Pair(a, first)), Response(identity, Pair(second, c))]
  {
    var frame, limit := [a, b, c], retention * 32;
    var turns := Script(a, first, second, c, identity, now);
    var p := Begin(NOTHING, frame, tf, identity, clock, []);
    assert p == Pass([], {}, {}, [], 0, []);
    assert Walk(p, frame, 1, tf, identity, limit, turns) == Went(p);
    assert turns(1) == Answer(a, first, identity, now);
    TwoRowsAccepted(p, a, b, a, first, tf, identity, limit, now);
    var q := Visit(p, a, b, tf, identity, limit, turns(1)).pass;
    assert Walk(p, frame, 2, tf, identity, limit, turns) == Went(q);
    assert turns(2) == Answer(second, c, identity, now);
    SecondIsFresh(p, q, a, b, c, first);
    TwoRowsAccepted(q, b, c, second, c, tf, identity, limit, now);
    assert Walk(p, frame, 3, tf, identity, limit, turns) == Visit(q, b, c, tf, identity, limit, turns(2));
  }

  lemma SecondIsFresh(p: Pass, q: Pass, a: Bar, b: Bar, c: Bar, first: Bar)
    requires a.time < b.time < c.time && p.staged == [] && p.remembered == {}
    requires q.staged == [] || q.staged == [] + [Entry(SignatureOf(a, b), [a, first])]
    requires q.remembered <= {} + {SignatureOf(a, b), SignatureOf(a, first)}
    ensures Lookup(q.staged, SignatureOf(b, c)).None? && SignatureOf(b, c) !in q.remembered && RowCount(q.staged) <= 2
  {
    assert SignatureOf(b, c).left.time != SignatureOf(a, b).left.time;
    assert q.staged != [] ==> q.staged[1..] == [] && q.staged[..0] == [];
    assert q.staged != [] ==> RowCount(q.staged[..0]) == 0;
  }

  /** Whenever two answers differ in the row they share, the first hole of the repaired frame is no pair of bars of any
      answer. */
  lemma SharedRowIsNotBacked(a: Bar, b: Bar, c: Bar, first: Bar, second: Bar, tf: Timeframe, identity: Identity,
                             retention: nat, clock: Clock, now: int)
    requires SharedRowRevised(a, b, c, first, second, tf, identity, retention, now)
    ensures var after := Refresh(NOTHING, [a, b, c], tf, identity, retention, clock,
                                 Script(a, first, second, c, identity, now), now, []);
            && after.outcome == Ok([a, second, c])
            && IsHole(a, second, tf) && !BackedBars(after.log, identity, SignatureOf(a, second))
  {
    var turns := Script(a, first, second, c, identity, now);
    TwoVisits(a, b, c, first, second, tf, identity, retention, clock, now);
    WalkStarts(NOTHING, [a, b, c], tf, identity, retention, clock, turns, now, []);
    TwoVisitsRepair(a, b, c, first, second, tf, identity, retention, clock, now);
    NotInEither(a, c, first, second, identity);
  }

  lemma TwoVisitsRepair(a: Bar, b: Bar, c: Bar, first: Bar, second: Bar, tf: Timeframe, identity: Identity,
                        retention: nat, clock: Clock, now: int)
    requires SharedRowRevised(a, b, c, first, second, tf, identity, retention, now)
    ensures var w := Walk(Begin(NOTHING, [a, b, c], tf, identity, clock, []), [a, b, c], 3, tf, identity,
                          retention * 32,
                          Script(a, first, second, c, identity, now));
            Repaired(w.pass, [a, b, c], tf, now) == [a, second, c]
  {
    var frame := [a, b, c];
    var turns := Script(a, first, second, c, identity, now);
    var p := Begin(NOTHING, frame, tf, identity, clock, []);
    TwoVisits(a, b, c, first, second, tf, identity, retention, clock, now);
    var q := Walk(p, frame, 3, tf, identity, retention * 32, turns).pass;
    ScriptClocks(a, first, second, c, identity, now);
    assert SoundPass(p, frame, 0, identity, tf, now);
    WalkKeeps(p, frame, 3, tf, identity, retention * 32, turns, now);
    RepairedMeaning(q, frame, tf, identity, now);
    RepairOfThree(q, a, b, c, first, second, tf, now);
  }

  lemma RepairOfThree(q: Pass, a: Bar, b: Bar, c: Bar, first: Bar, second: Bar, tf: Timeframe, now: int)
    requires a.time < b.time < c.time && first.time == b.time == second.time && q.additions == [[a, first], [second, c]]
    requires Increasing(Repaired(q, [a, b, c], tf, now))
    requires Newest(Repaired(q, [a, b, c], tf, now)) == Newest([a, b, c]) + Newest(Concat(q.additions))
    ensures Repaired(q, [a, b, c], tf, now) == [a, second, c]
  {
    NewestOfThree(a, b, c, first, second);
    FrameIsUnique(Repaired(q, [a, b, c], tf, now), [a, second, c]);
  }

  lemma ScriptClocks(a: Bar, first: Bar, second: Bar, c: Bar, identity: Identity, now: int)
    ensures ClocksUpTo(Script(a, first, second, c, identity, now), now)
  {
    var turns := Script(a, first, second, c, identity, now);
    forall i: nat ensures turns(i).now <= now {
      assert turns(i) == if i == 1 then Answer(a, first, identity, now) else Answer(second, c, identity, now);
    }
  }

  lemma NewestOfThree(a: Bar, b: Bar, c: Bar, first: Bar, second: Bar)
    requires a.time < b.time < c.time && first.time == b.time == second.time
    ensures Newest([a, b, c]) + Newest(Concat([[a, first], [second, c]])) == Newest([a, second, c])
  {
    var parts: seq<seq<Bar>> := [[a, first], [second, c]];
    assert parts[..1] == [[a, first]] && parts[..1][..0] == [];
    assert Concat(parts[..1][..0]) == [];
    assert Concat(parts[..1]) == [] + [a, first];
    assert Concat(parts) == [a, first, second, c];
    NewestPair(a, b);
    NewestPair(a, second);
    NewestPair(a, first);
    NewestAppend([a, b], c);
    NewestAppend([a, second], c);
    NewestAppend([a, first], second);
    NewestAppend([a, first, second], c);
    assert [a, b] + [c] == [a, b, c] && [a, second] + [c] == [a, second, c];
    assert [a, first] + [second] == [a, first, second] && [a, first, second] + [c] == [a, first, second, c];
  }

  lemma NewestPair(x: Bar, y: Bar)
    ensures Newest([x, y]) == map[x.time := x][y.time := y]
  {
    NewestAppend([], x);
    NewestAppend([x], y);
    assert [] + [x] == [x] && [x] + [y] == [x, y];
  }

  lemma NotInEither(a: Bar, c: Bar, first: Bar, second: Bar, identity: Identity)
    requires a.time < first.time == second.time < c.time && CornerOf(first) != CornerOf(second)
    ensures !BackedBars([Response(identity, Pair(a, first)), Response(identity, Pair(second, c))], identity,
                        SignatureOf(a, second))
  {
    var log := [Response(identity, Pair(a, first)), Response(identity, Pair(second, c))];
    forall r | r in log && r.identity == identity
      ensures !NeighbourBars(r.rows, identity.symbol, SignatureOf(a, second))
    {
      if r == log[0] {
        assert forall row | row in r.rows :: row == RawOf(a) || row == RawOf(first);
      } else {
        assert forall row | row in r.rows :: row == RawOf(second) || row == RawOf(c);
      }
    }
  }
}
