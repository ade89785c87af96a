/** Every hole left in a verified frame is a hole in some answer of the broker. */
module GapSoundness {
  import opened Wrappers
  import opened Bars
  import opened Validation
  import opened Gaps

  predicate HasCorner(r: Raw, c: Corner, source: string) {
    Complete(r) && CornerOf(ToBar(r, source)) == c
  }

  /** The rows of an answer hold bars at x and y and none between them. */
  ghost predicate Neighbours(rows: seq<Raw>, x: int, y: int) {
    && x < y
    && (exists a :: a in rows && a.time == Some(x))
    && (exists b :: b in rows && b.time == Some(y))
    && (forall c | c in rows && c.time.Some? :: c.time.value <= x || y <= c.time.value)
  }

  /** The same for bars rather than times. */
  ghost predicate NeighbourBars(rows: seq<Raw>, source: string, sig: Signature) {
    && Neighbours(rows, sig.left.time, sig.right.time)
    && (exists a :: a in rows && HasCorner(a, sig.left, source))
    && (exists b :: b in rows && HasCorner(b, sig.right, source))
  }

  ghost predicate BackedTimes(log: seq<Response>, identity: Identity, x: int, y: int) {
    exists r :: r in log && r.identity == identity && Neighbours(r.rows, x, y)
  }

  ghost predicate BackedBars(log: seq<Response>, identity: Identity, sig: Signature) {
    exists r :: r in log && r.identity == identity && NeighbourBars(r.rows, identity.symbol, sig)
  }

  lemma BarsBackTimes(log: seq<Response>, identity: Identity, sig: Signature)
    requires BackedBars(log, identity, sig)
    ensures BackedTimes(log, identity, sig.left.time, sig.right.time)
  {}

  // ---- Blocks of rows taken from an answer ----

  ghost predicate Copies(block: seq<Bar>, rows: seq<Raw>, source: string) {
    && Increasing(block)
    && (forall r | r in rows :: Complete(r) && ToBar(r, source) in block)
    && (forall b | b in block :: exists r :: r in rows && Complete(r) && ToBar(r, source) == b)
  }

  ghost predicate FromLog(block: seq<Bar>, log: seq<Response>, identity: Identity) {
    exists r :: r in log && r.identity == identity && Copies(block, r.rows, identity.symbol)
  }

  ghost predicate Grounded(block: seq<Bar>, log: seq<Response>, identity: Identity, tf: Timeframe, now: int) {
    block != [] && Increasing(block) && AllClosed(block, tf, now) && FromLog(block, log, identity)
    && forall b | b in block :: SoundBar(b, tf) && b.source == identity.symbol
  }

  lemma CopiedNeighbours(block: seq<Bar>, rows: seq<Raw>, source: string, k: nat)
    requires Copies(block, rows, source) && k + 1 < |block|
    ensures NeighbourBars(rows, source, SignatureOf(block[k], block[k + 1]))
  {
    var x, y := block[k], block[k + 1];
    assert x in block && y in block;
    var a :| a in rows && Complete(a) && ToBar(a, source) == x;
    var b :| b in rows && Complete(b) && ToBar(b, source) == y;
    assert HasCorner(a, CornerOf(x), source) && HasCorner(b, CornerOf(y), source);
    forall c | c in rows && c.time.Some? ensures c.time.value <= x.time || y.time <= c.time.value {
      var j :| 0 <= j < |block| && block[j] == ToBar(c, source);
      assert j <= k || k + 1 <= j;
    }
  }

  lemma GroundedNeighbours(block: seq<Bar>, log: seq<Response>, identity: Identity, tf: Timeframe, now: int, k: nat)
    requires Grounded(block, log, identity, tf, now) && k + 1 < |block|
    ensures BackedBars(log, identity, SignatureOf(block[k], block[k + 1]))
  {
    var r :| r in log && r.identity == identity && Copies(block, r.rows, identity.symbol);
    CopiedNeighbours(block, r.rows, identity.symbol, k);
  }

  lemma {:induction false} HoleAt(s: seq<Bar>, n: nat, tf: Timeframe, sig: Signature)
    requires n <= |s| && sig in Holes(s, n, tf)
    ensures exists i :: 1 <= i < n && IsHole(s[i - 1], s[i], tf) && SignatureOf(s[i - 1], s[i]) == sig
  {
    if sig in Holes(s, n - 1, tf) {
      HoleAt(s, n - 1, tf, sig);
    } else {
      assert IsHole(s[n - 2], s[n - 1], tf) && SignatureOf(s[n - 2], s[n - 1]) == sig;
    }
  }

  lemma {:induction false} HoleIn(s: seq<Bar>, n: nat, tf: Timeframe, i: nat)
    requires 1 <= i < n <= |s| && IsHole(s[i - 1], s[i], tf)
    ensures SignatureOf(s[i - 1], s[i]) in Holes(s, n, tf)
  {
    if i < n - 1 {
      HoleIn(s, n - 1, tf, i);
    }
  }

  lemma ClosureIsBacked(block: seq<Bar>, log: seq<Response>, identity: Identity, tf: Timeframe, now: int,
                        sig: Signature)
    requires Grounded(block, log, identity, tf, now) && sig in AllHoles(block, tf)
    ensures BackedBars(log, identity, sig)
  {
    HoleAt(block, |block|, tf, sig);
    var i :| 1 <= i < |block| && IsHole(block[i - 1], block[i], tf) && SignatureOf(block[i - 1], block[i]) == sig;
    GroundedNeighbours(block, log, identity, tf, now, i - 1);
  }

  lemma ClosuresAreBacked(block: seq<Bar>, log: seq<Response>, identity: Identity, tf: Timeframe, now: int)
    requires Grounded(block, log, identity, tf, now)
    ensures forall sig | sig in AllHoles(block, tf) :: BackedBars(log, identity, sig)
  {
    forall sig | sig in AllHoles(block, tf) ensures BackedBars(log, identity, sig) {
      ClosureIsBacked(block, log, identity, tf, now, sig);
    }
  }

  lemma CheckedIsGrounded(left: Bar, right: Bar, tf: Timeframe, identity: Identity, turn: Turn, log: seq<Response>,
                          now: int)
    requires Checked(left, right, tf, identity, turn).Ok? && turn.now <= now
    ensures Grounded(Checked(left, right, tf, identity, turn).value, Logged(log, identity, turn), identity, tf, now)
  {
    var rates := turn.reply.rates;
    var found := Checked(left, right, tf, identity, turn).value;
    ValidatedMeaning(rates.rows, rates.complete, identity.symbol, tf, turn.now);
    NothingDropped(rates.rows, rates.complete, identity.symbol, tf, turn.now);
    assert Copies(found, rates.rows, identity.symbol);
    var r := Response(identity, rates.rows);
    assert r in Logged(log, identity, turn);
  }

  lemma LongerLog(log: seq<Response>, longer: seq<Response>, identity: Identity, tf: Timeframe, now: int)
    requires log <= longer
    ensures forall sig :: BackedBars(log, identity, sig) ==> BackedBars(longer, identity, sig)
    ensures forall block :: Grounded(block, log, identity, tf, now) ==> Grounded(block, longer, identity, tf, now)
  {
    assert forall r | r in log :: r in longer;
    forall sig | BackedBars(log, identity, sig) ensures BackedBars(longer, identity, sig) {
      var r :| r in log && r.identity == identity && NeighbourBars(r.rows, identity.symbol, sig);
      assert r in longer;
    }
    forall block | Grounded(block, log, identity, tf, now) ensures Grounded(block, longer, identity, tf, now) {
      var r :| r in log && r.identity == identity && Copies(block, r.rows, identity.symbol);
      assert r in longer;
    }
  }

  // ---- What staged rows and remembered signatures stand for ----

  ghost predicate SoundEntry(e: Entry, log: seq<Response>, identity: Identity, tf: Timeframe, now: int) {
    && Grounded(e.rows, log, identity, tf, now)
    && e.rows[0].time == e.signature.left.time && e.rows[|e.rows| - 1].time == e.signature.right.time
  }

  ghost predicate SoundStaging(staged: seq<Entry>, log: seq<Response>, identity: Identity, tf: Timeframe, now: int) {
    forall e | e in staged :: SoundEntry(e, log, identity, tf, now)
  }

  /** Each remembered signature of the frame that no staged rows shadow is a pair of neighbours in some answer. */
  ghost predicate SoundMemory(staged: seq<Entry>, remembered: set<Signature>, holes: set<Signature>, log: seq<Response>,
                              identity: Identity) {
    forall sig | sig in remembered && sig in holes && Lookup(staged, sig).None? :: BackedBars(log, identity, sig)
  }

  lemma {:induction false} LookupMeaning(staged: seq<Entry>, sig: Signature)
    ensures Lookup(staged, sig).Some? ==> Entry(sig, Lookup(staged, sig).value) in staged
    ensures forall e | e in staged && e.signature == sig :: Lookup(staged, sig).Some?
  {
    if staged != [] {
      LookupMeaning(staged[1..], sig);
      assert staged == [staged[0]] + staged[1..];
    }
  }

  lemma {:induction false} LookupAppended(staged: seq<Entry>, e: Entry, sig: Signature)
    ensures Lookup(staged + [e], sig) == if Lookup(staged, sig).None? && e.signature == sig then Some(e.rows)
      else Lookup(staged, sig)
  {
    if staged == [] {
      assert staged + [e] == [e];
    } else {
      LookupAppended(staged[1..], e, sig);
      assert (staged + [e])[1..] == staged[1..] + [e];
    }
  }

  // ---- The walk ----

  /** A block that stands for the hole before row i. */
  predicate Fits(block: seq<Bar>, frame: seq<Bar>, i: nat, tf: Timeframe) {
    1 <= i < |frame| && IsHole(frame[i - 1], frame[i], tf) && Boundaries(block, frame[i - 1], frame[i])
  }

  predicate InOrder(parts: seq<seq<Bar>>) {
    forall j, k | 0 <= j < k < |parts| && parts[j] != [] && parts[k] != [] ::
      parts[j][|parts[j]| - 1].time <= parts[k][0].time
  }

  ghost predicate FitsSome(block: seq<Bar>, frame: seq<Bar>, n: nat, tf: Timeframe) {
    exists i :: 1 <= i < n && Fits(block, frame, i, tf)
  }

  ghost predicate SoundAdditions(p: Pass, frame: seq<Bar>, n: nat, identity: Identity, tf: Timeframe, now: int) {
    && (forall block | block in p.additions ::
        Grounded(block, p.log, identity, tf, now) && FitsSome(block, frame, n, tf))
    && InOrder(p.additions)
  }

  ghost predicate Answered(p: Pass, frame: seq<Bar>, i: nat, identity: Identity, tf: Timeframe)
    requires 1 <= i < |frame|
  {
    (exists block :: block in p.additions && Fits(block, frame, i, tf))
    || BackedBars(p.log, identity, SignatureOf(frame[i - 1], frame[i]))
  }

  ghost predicate AllAnswered(p: Pass, frame: seq<Bar>, n: nat, identity: Identity, tf: Timeframe)
    requires n <= |frame|
  {
    forall i | 1 <= i < n && IsHole(frame[i - 1], frame[i], tf) :: Answered(p, frame, i, identity, tf)
  }

  ghost predicate SoundPass(p: Pass, frame: seq<Bar>, n: nat, identity: Identity, tf: Timeframe, now: int) {
    && n <= |frame|
    && SoundStaging(p.staged, p.log, identity, tf, now)
    && SoundMemory(p.staged, p.remembered, AllHoles(frame, tf), p.log, identity)
    && SoundAdditions(p, frame, n, identity, tf, now)
    && AllAnswered(p, frame, n, identity, tf)
  }

  lemma OrderedAppend(parts: seq<seq<Bar>>, block: seq<Bar>, frame: seq<Bar>, n: nat, tf: Timeframe)
    requires Increasing(frame) && 2 <= n && InOrder(parts) && Fits(block, frame, n - 1, tf)
    requires forall b | b in parts :: FitsSome(b, frame, n - 1, tf)
    ensures InOrder(parts + [block])
  {
    var all: seq<seq<Bar>> := parts + [block];
    forall j, k | 0 <= j < k < |all| && all[j] != [] && all[k] != []
      ensures all[j][|all[j]| - 1].time <= all[k][0].time
    {
      assert all[j] == parts[j] && parts[j] in parts;
      if k == |parts| {
        var i :| 1 <= i < n - 1 && Fits(parts[j], frame, i, tf);
      } else {
        assert all[k] == parts[k];
      }
    }
  }

  lemma AppendBlock(p: Pass, block: seq<Bar>, q: Pass, frame: seq<Bar>, n: nat, identity: Identity, tf: Timeframe,
                    now: int)
    requires Increasing(frame) && 2 <= n <= |frame| && p.log <= q.log && q.additions == p.additions + [block]
    requires SoundAdditions(p, frame, n - 1, identity, tf, now) && AllAnswered(p, frame, n - 1, identity, tf)
    requires Grounded(block, q.log, identity, tf, now) && Fits(block, frame, n - 1, tf)
    ensures SoundAdditions(q, frame, n, identity, tf, now) && AllAnswered(q, frame, n, identity, tf)
  {
    OrderedAppend(p.additions, block, frame, n, tf);
    AppendKeepsAdditions(p, block, q, frame, n, identity, tf, now);
    AppendAnswers(p, block, q, frame, n, identity, tf, now);
  }

  lemma AppendKeepsAdditions(p: Pass, block: seq<Bar>, q: Pass, frame: seq<Bar>, n: nat, identity: Identity,
                             tf: Timeframe, now: int)
    requires 2 <= n <= |frame| && p.log <= q.log && q.additions == p.additions + [block] && InOrder(q.additions)
    requires SoundAdditions(p, frame, n - 1, identity, tf, now)
    requires Grounded(block, q.log, identity, tf, now) && Fits(block, frame, n - 1, tf)
    ensures SoundAdditions(q, frame, n, identity, tf, now)
  {
    LongerLog(p.log, q.log, identity, tf, now);
    forall b | b in q.additions ensures Grounded(b, q.log, identity, tf, now) && FitsSome(b, frame, n, tf) {
      if b in p.additions {
        assert FitsSome(b, frame, n - 1, tf);
      }
    }
  }

  lemma AppendAnswers(p: Pass, block: seq<Bar>, q: Pass, frame: seq<Bar>, n: nat, identity: Identity, tf: Timeframe,
                      now: int)
    requires 2 <= n <= |frame| && p.log <= q.log && q.additions == p.additions + [block]
    requires AllAnswered(p, frame, n - 1, identity, tf) && Fits(block, frame, n - 1, tf)
    ensures AllAnswered(q, frame, n, identity, tf)
  {
    LongerLog(p.log, q.log, identity, tf, now);
    assert block in q.additions && forall b | b in p.additions :: b in q.additions;
    forall i | 1 <= i < n && IsHole(frame[i - 1], frame[i], tf) ensures Answered(q, frame, i, identity, tf) {
      if i < n - 1 {
        assert Answered(p, frame, i, identity, tf);
      }
    }
  }

  lemma AppendNothing(p: Pass, q: Pass, frame: seq<Bar>, n: nat, identity: Identity, tf: Timeframe, now: int)
    requires 2 <= n <= |frame| && p.log == q.log && q.additions == p.additions
    requires SoundAdditions(p, frame, n - 1, identity, tf, now) && AllAnswered(p, frame, n - 1, identity, tf)
    requires IsHole(frame[n - 2], frame[n - 1], tf)
             ==> BackedBars(q.log, identity, SignatureOf(frame[n - 2], frame[n - 1]))
    ensures SoundAdditions(q, frame, n, identity, tf, now) && AllAnswered(q, frame, n, identity, tf)
  {
    forall b | b in q.additions ensures FitsSome(b, frame, n, tf) {
      assert FitsSome(b, frame, n - 1, tf);
    }
    forall i | 1 <= i < n && IsHole(frame[i - 1], frame[i], tf) ensures Answered(q, frame, i, identity, tf) {
      if i < n - 1 {
        assert Answered(p, frame, i, identity, tf);
      }
    }
  }

  lemma AcceptKeeps(p: Pass, frame: seq<Bar>, n: nat, found: seq<Bar>, tf: Timeframe, identity: Identity, limit: nat,
                    now: int)
    requires Increasing(frame) && 2 <= n <= |frame| && SoundPass(p, frame, n - 1, identity, tf, now)
    requires Grounded(found, p.log, identity, tf, now) && Boundaries(found, frame[n - 2], frame[n - 1])
    requires IsHole(frame[n - 2], frame[n - 1], tf)
    requires Accept(p, frame[n - 2], frame[n - 1], found, tf, limit).Went?
    ensures SoundPass(Accept(p, frame[n - 2], frame[n - 1], found, tf, limit).pass, frame, n, identity, tf, now)
  {
    var q := Accept(p, frame[n - 2], frame[n - 1], found, tf, limit).pass;
    AppendBlock(p, found, q, frame, n, identity, tf, now);
    AcceptKeepsStaging(p, frame[n - 2], frame[n - 1], found, tf, identity, limit, now);
    AcceptKeepsMemory(p, frame[n - 2], frame[n - 1], found, tf, identity, limit, now, AllHoles(frame, tf));
  }

  lemma AcceptKeepsStaging(p: Pass, left: Bar, right: Bar, found: seq<Bar>, tf: Timeframe, identity: Identity,
                           limit: nat, now: int)
    requires SoundStaging(p.staged, p.log, identity, tf, now)
    requires Grounded(found, p.log, identity, tf, now) && Boundaries(found, left, right)
    ensures SoundStaging(Accept(p, left, right, found, tf, limit).pass.staged, p.log, identity, tf, now)
  {
    assert SoundEntry(Entry(SignatureOf(left, right), found), p.log, identity, tf, now);
  }

  lemma AcceptKeepsMemory(p: Pass, left: Bar, right: Bar, found: seq<Bar>, tf: Timeframe, identity: Identity,
                          limit: nat, now: int, holes: set<Signature>)
    requires SoundMemory(p.staged, p.remembered, holes, p.log, identity) && IsHole(left, right, tf)
    requires Grounded(found, p.log, identity, tf, now) && Boundaries(found, left, right)
    ensures var q := Accept(p, left, right, found, tf, limit).pass;
            SoundMemory(q.staged, q.remembered, holes, p.log, identity)
  {
    var q := Accept(p, left, right, found, tf, limit).pass;
    var sig := SignatureOf(left, right);
    ClosuresAreBacked(found, p.log, identity, tf, now);
    forall s | s in q.remembered && s in holes && Lookup(q.staged, s).None? ensures BackedBars(p.log, identity, s) {
      if Changes(found, left, right) {
        LookupAppended(p.staged, Entry(sig, found), s);
      }
    }
  }

  lemma VisitKeeps(p: Pass, frame: seq<Bar>, n: nat, tf: Timeframe, identity: Identity, limit: nat, turn: Turn,
                   now: int)
    requires Increasing(frame) && 2 <= n <= |frame| && SoundPass(p, frame, n - 1, identity, tf, now) && turn.now <= now
    requires IsHole(frame[n - 2], frame[n - 1], tf)
    requires Visit(p, frame[n - 2], frame[n - 1], tf, identity, limit, turn).Went?
    ensures SoundPass(Visit(p, frame[n - 2], frame[n - 1], tf, identity, limit, turn).pass, frame, n, identity, tf, now)
    ensures p.log <= Visit(p, frame[n - 2], frame[n - 1], tf, identity, limit, turn).pass.log
  {
    var left, right := frame[n - 2], frame[n - 1];
    var q := Visit(p, left, right, tf, identity, limit, turn).pass;
    var sig := SignatureOf(left, right);
    LookupMeaning(p.staged, sig);
    HoleIn(frame, |frame|, tf, n - 1);
    if Lookup(p.staged, sig).Some? {
      var block := Lookup(p.staged, sig).value;
      assert SoundEntry(Entry(sig, block), p.log, identity, tf, now);
      AppendBlock(p, block, q, frame, n, identity, tf, now);
    } else if sig in p.remembered {
      AppendNothing(p, q, frame, n, identity, tf, now);
    } else {
      var asked := p.(log := Logged(p.log, identity, turn));
      CheckedIsGrounded(left, right, tf, identity, turn, p.log, now);
      LongerLogKeeps(p, asked, frame, n - 1, identity, tf, now);
      AcceptKeeps(asked, frame, n, Checked(left, right, tf, identity, turn).value, tf, identity, limit, now);
    }
  }

  lemma LongerLogKeeps(p: Pass, q: Pass, frame: seq<Bar>, n: nat, identity: Identity, tf: Timeframe, now: int)
    requires SoundPass(p, frame, n, identity, tf, now) && q == p.(log := q.log) && p.log <= q.log
    ensures SoundPass(q, frame, n, identity, tf, now)
  {
    LongerLog(p.log, q.log, identity, tf, now);
    forall i | 1 <= i < n && IsHole(frame[i - 1], frame[i], tf) ensures Answered(q, frame, i, identity, tf) {
      assert Answered(p, frame, i, identity, tf);
    }
  }

  ghost predicate ClocksUpTo(turns: nat -> Turn, now: int) {
    forall i :: turns(i).now <= now
  }

  lemma {:induction false} WalkKeeps(p: Pass, frame: seq<Bar>, n: nat, tf: Timeframe, identity: Identity, limit: nat,
                                     turns: nat -> Turn, now: int)
    requires Increasing(frame) && n <= |frame| && ClocksUpTo(turns, now)
    requires SoundPass(p, frame, 0, identity, tf, now) && p.additions == []
    requires Walk(p, frame, n, tf, identity, limit, turns).Went?
    ensures SoundPass(Walk(p, frame, n, tf, identity, limit, turns).pass, frame, n, identity, tf, now)
    ensures p.log <= Walk(p, frame, n, tf, identity, limit, turns).pass.log
  {
    if n > 1 {
      WalkKeeps(p, frame, n - 1, tf, identity, limit, turns, now);
      var q := Walk(p, frame, n - 1, tf, identity, limit, turns).pass;
      if IsHole(frame[n - 2], frame[n - 1], tf) {
        VisitKeeps(q, frame, n, tf, identity, limit, turns(n - 1), now);
      } else {
        AppendNothing(q, q, frame, n, identity, tf, now);
      }
    }
  }
}
