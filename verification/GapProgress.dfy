/** Bounded verification makes progress: a refresh that runs out of calls settles exactly as many holes as it may. */
module GapProgress {
  import opened Wrappers
  import opened Bars
  import opened Validation
  import opened Gaps
  import opened GapSoundness
  import opened GapTheorems

  predicate Unknown(p: Pass, sig: Signature) {
    Lookup(p.staged, sig).None? && sig !in p.remembered
  }

  predicate UnknownHole(p: Pass, frame: seq<Bar>, i: nat, tf: Timeframe)
    requires 1 <= i < |frame|
  {
    IsHole(frame[i - 1], frame[i], tf) && Unknown(p, SignatureOf(frame[i - 1], frame[i]))
  }

  /** Holes among the first n rows that neither staged rows nor a remembered signature settle. */
  function Pending(p: Pass, frame: seq<Bar>, n: nat, tf: Timeframe): nat
    requires n <= |frame|
  {
    if n <= 1 then 0 else Pending(p, frame, n - 1, tf) + (if UnknownHole(p, frame, n - 1, tf) then 1 else 0)
  }

  ghost predicate SameFrom(p: Pass, q: Pass, frame: seq<Bar>, n: nat, tf: Timeframe) {
    forall i | 1 <= i < |frame| && n <= i :: UnknownHole(p, frame, i, tf) == UnknownHole(q, frame, i, tf)
  }

  lemma {:induction false} PendingSplit(p: Pass, q: Pass, frame: seq<Bar>, n: nat, m: nat, tf: Timeframe)
    requires n <= m <= |frame| && Pending(q, frame, n, tf) == 0 && SameFrom(p, q, frame, n, tf)
    ensures Pending(q, frame, m, tf) == Pending(p, frame, m, tf) - Pending(p, frame, n, tf)
  {
    if n < m {
      PendingSplit(p, q, frame, n, m - 1, tf);
    }
  }

  lemma {:induction false} PendingAgrees(p: Pass, q: Pass, frame: seq<Bar>, n: nat, tf: Timeframe)
    requires n <= |frame| && forall i | 1 <= i < n :: UnknownHole(p, frame, i, tf) == UnknownHole(q, frame, i, tf)
    ensures Pending(p, frame, n, tf) == Pending(q, frame, n, tf)
  {
    if n > 1 {
      PendingAgrees(p, q, frame, n - 1, tf);
    }
  }

  // An answer lies between the rows that asked for it, so it settles no other hole of the frame.
  lemma ClosuresElsewhere(frame: seq<Bar>, found: seq<Bar>, n: nat, i: nat, tf: Timeframe)
    requires Increasing(frame) && Increasing(found) && 1 <= n < |frame| && 1 <= i < |frame| && i != n
    requires Boundaries(found, frame[n - 1], frame[n])
    ensures SignatureOf(frame[i - 1], frame[i]) !in AllHoles(found, tf)
  {
    var sig := SignatureOf(frame[i - 1], frame[i]);
    if sig in AllHoles(found, tf) {
      HoleAt(found, |found|, tf, sig);
      assert false;
    }
  }

  lemma DifferentHoles(frame: seq<Bar>, n: nat, i: nat)
    requires Increasing(frame) && 1 <= n < |frame| && 1 <= i < |frame| && i != n
    ensures SignatureOf(frame[i - 1], frame[i]) != SignatureOf(frame[n - 1], frame[n])
  {
    assert SignatureOf(frame[i - 1], frame[i]).right.time == frame[i].time;
    assert SignatureOf(frame[n - 1], frame[n]).right.time == frame[n].time;
    assert i < n ==> frame[i].time < frame[n].time;
    assert n < i ==> frame[n].time < frame[i].time;
  }

  lemma AcceptSettlesOne(p: Pass, frame: seq<Bar>, n: nat, found: seq<Bar>, tf: Timeframe, limit: nat, i: nat)
    requires Increasing(frame) && Increasing(found) && 1 <= n < |frame| && 1 <= i < |frame|
    requires Boundaries(found, frame[n - 1], frame[n]) && Accept(p, frame[n - 1], frame[n], found, tf, limit).Went?
    ensures var q := Accept(p, frame[n - 1], frame[n], found, tf, limit).pass;
            UnknownHole(q, frame, i, tf) == (i != n && UnknownHole(p, frame, i, tf))
  {
    var q := Accept(p, frame[n - 1], frame[n], found, tf, limit).pass;
    var sig, other := SignatureOf(frame[n - 1], frame[n]), SignatureOf(frame[i - 1], frame[i]);
    LookupAppended(p.staged, Entry(sig, found), other);
    if i != n {
      DifferentHoles(frame, n, i);
      ClosuresElsewhere(frame, found, n, i, tf);
    }
  }

  lemma VisitSettlesOne(p: Pass, frame: seq<Bar>, n: nat, tf: Timeframe, identity: Identity, limit: nat, turn: Turn,
                        i: nat)
    requires Increasing(frame) && 1 <= n < |frame| && 1 <= i < |frame| && IsHole(frame[n - 1], frame[n], tf)
    requires Visit(p, frame[n - 1], frame[n], tf, identity, limit, turn).Went?
    ensures var q := Visit(p, frame[n - 1], frame[n], tf, identity, limit, turn).pass;
            && UnknownHole(q, frame, i, tf) == (i != n && UnknownHole(p, frame, i, tf))
            && q.calls == p.calls + (if UnknownHole(p, frame, n, tf) then 1 else 0)
            && (p.calls <= CALL_BUDGET ==> q.calls <= CALL_BUDGET)
  {
    var left, right := frame[n - 1], frame[n];
    if Unknown(p, SignatureOf(left, right)) {
      var asked := p.(log := Logged(p.log, identity, turn));
      var rates := turn.reply.rates;
      ValidatedMeaning(rates.rows, rates.complete, identity.symbol, tf, turn.now);
      AcceptSettlesOne(asked, frame, n, Checked(left, right, tf, identity, turn).value, tf, limit, i);
    }
  }

  lemma {:induction false} WalkSettles(p: Pass, frame: seq<Bar>, n: nat, tf: Timeframe, identity: Identity, limit: nat,
                                       turns: nat -> Turn)
    requires Increasing(frame) && n <= |frame| && p.calls == 0
    requires Walk(p, frame, n, tf, identity, limit, turns).Went?
    ensures var q := Walk(p, frame, n, tf, identity, limit, turns).pass;
            && q.calls == Pending(p, frame, n, tf) && q.calls <= CALL_BUDGET
            && Pending(q, frame, n, tf) == 0 && SameFrom(p, q, frame, n, tf)
  {
    if n > 1 {
      WalkSettles(p, frame, n - 1, tf, identity, limit, turns);
      var most := Walk(p, frame, n - 1, tf, identity, limit, turns).pass;
      var q := Walk(p, frame, n, tf, identity, limit, turns).pass;
      if IsHole(frame[n - 2], frame[n - 1], tf) {
        forall i: nat | 1 <= i < |frame|
          ensures UnknownHole(q, frame, i, tf) == (i != n - 1 && UnknownHole(most, frame, i, tf))
        {
          VisitSettlesOne(most, frame, n - 1, tf, identity, limit, turns(n - 1), i);
        }
        VisitSettlesOne(most, frame, n - 1, tf, identity, limit, turns(n - 1), n - 1);
        PendingAgrees(most, q, frame, n - 1, tf);
      }
    }
  }

  /** Where a walk runs out of calls although no clock expired, it has settled eight holes and met a ninth. */
  lemma {:induction false} WalkExhausts(p: Pass, frame: seq<Bar>, n: nat, tf: Timeframe, identity: Identity, limit: nat,
                                        turns: nat -> Turn)
    requires Increasing(frame) && n <= |frame| && p.calls == 0 && forall i :: !turns(i).expired
    requires Walk(p, frame, n, tf, identity, limit, turns).Stopped?
    requires Walk(p, frame, n, tf, identity, limit, turns).error == BudgetExhausted
    ensures var q := Walk(p, frame, n, tf, identity, limit, turns).pass;
            && q.calls == CALL_BUDGET && CALL_BUDGET < Pending(p, frame, |frame|, tf)
            && Pending(q, frame, |frame|, tf) == Pending(p, frame, |frame|, tf) - CALL_BUDGET
  {
    var before := Walk(p, frame, n - 1, tf, identity, limit, turns);
    if before.Stopped? {
      WalkExhausts(p, frame, n - 1, tf, identity, limit, turns);
    } else {
      var q := before.pass;
      WalkSettles(p, frame, n - 1, tf, identity, limit, turns);
      assert Visit(q, frame[n - 2], frame[n - 1], tf, identity, limit, turns(n - 1)) == Stopped(BudgetExhausted, q) by {
        OnlyTheBudget(q, frame[n - 2], frame[n - 1], tf, identity, limit, turns(n - 1));
      }
      PendingSplit(p, q, frame, n - 1, |frame|, tf);
      PendingSplit(p, q, frame, n - 1, n, tf);
      PendingGrows(q, frame, n, |frame|, tf);
    }
  }

  lemma OnlyTheBudget(p: Pass, left: Bar, right: Bar, tf: Timeframe, identity: Identity, limit: nat, turn: Turn)
    requires Visit(p, left, right, tf, identity, limit, turn).Stopped?
    requires Visit(p, left, right, tf, identity, limit, turn).error == BudgetExhausted
    ensures Visit(p, left, right, tf, identity, limit, turn).pass == p
    ensures Unknown(p, SignatureOf(left, right)) && (p.calls >= CALL_BUDGET || turn.expired)
  {}

  lemma {:induction false} PendingGrows(p: Pass, frame: seq<Bar>, n: nat, m: nat, tf: Timeframe)
    requires n <= m <= |frame|
    ensures Pending(p, frame, n, tf) <= Pending(p, frame, m, tf)
  {
    if n < m {
      PendingGrows(p, frame, n, m - 1, tf);
    }
  }

  // ---- Over refreshes of an unchanged frame ----

  function PendingOnEntry(m: Memory, frame: seq<Bar>, tf: Timeframe, identity: Identity, clock: Clock): nat {
    Pending(Begin(m, frame, tf, identity, clock, []), frame, |frame|, tf)
  }

  lemma {:induction false} KeepingLookup(staged: seq<Entry>, signatures: set<Signature>, sig: Signature)
    requires sig in signatures
    ensures Lookup(Keeping(staged, signatures), sig) == Lookup(staged, sig)
  {
    if staged != [] {
      var most, last := staged[..|staged| - 1], staged[|staged| - 1];
      KeepingLookup(most, signatures, sig);
      LookupAppended(most, last, sig);
      LookupAppended(Keeping(most, signatures), last, sig);
      assert staged == most + [last];
      assert last.signature !in signatures ==> Keeping(staged, signatures) == Keeping(most, signatures);
    }
  }

  /** A refresh with no expired clock that runs out of calls leaves exactly eight holes fewer to the next one. */
  lemma ExhaustionSettlesEight(m: Memory, frame: seq<Bar>, tf: Timeframe, identity: Identity, retention: nat,
                               clock: Clock, turns: nat -> Turn, now: int, log: seq<Response>, next: Clock)
    requires Increasing(frame) && forall i :: !turns(i).expired
    requires Refresh(m, frame, tf, identity, retention, clock, turns, now, log).outcome == Err(BudgetExhausted)
    requires var after := Refresh(m, frame, tf, identity, retention, clock, turns, now, log).memory;
             StagingCurrent(after, identity, next) && CertificatesCurrent(after, identity, next)
    ensures var after := Refresh(m, frame, tf, identity, retention, clock, turns, now, log).memory;
            && CALL_BUDGET < PendingOnEntry(m, frame, tf, identity, clock)
            && PendingOnEntry(after, frame, tf, identity, next)
              == PendingOnEntry(m, frame, tf, identity, clock) - CALL_BUDGET
  {
    var p := Begin(m, frame, tf, identity, clock, log);
    var after := Refresh(m, frame, tf, identity, retention, clock, turns, now, log).memory;
    WalkStarts(m, frame, tf, identity, retention, clock, turns, now, log);
    WalkExhausts(p, frame, |frame|, tf, identity, retention * 32, turns);
    var q := Walk(p, frame, |frame|, tf, identity, retention * 32, turns).pass;
    PendingAgrees(p, Begin(m, frame, tf, identity, clock, []), frame, |frame|, tf);
    var resumed := Begin(after, frame, tf, identity, next, []);
    assert after == Stored(m, frame, tf, identity, clock, q);
    assert resumed.staged == Keeping(q.staged, AllHoles(frame, tf)) && resumed.remembered == q.remembered;
    forall i: nat | 1 <= i < |frame| ensures UnknownHole(resumed, frame, i, tf) == UnknownHole(q, frame, i, tf) {
      if IsHole(frame[i - 1], frame[i], tf) {
        HoleIn(frame, |frame|, tf, i);
        KeepingLookup(q.staged, AllHoles(frame, tf), SignatureOf(frame[i - 1], frame[i]));
      }
    }
    PendingAgrees(resumed, q, frame, |frame|, tf);
  }

  datatype Round = Round(clock: Clock, turns: nat -> Turn, now: int)

  function AfterRounds(m: Memory, rounds: seq<Round>, frame: seq<Bar>, tf: Timeframe, identity: Identity,
                       retention: nat): Memory
    decreases |rounds|
  {
    if rounds == [] then m
    else
      var r := rounds[0];
      AfterRounds(Refresh(m, frame, tf, identity, retention, r.clock, r.turns, r.now, []).memory, rounds[1..], frame,
                  tf, identity, retention)
  }

  /** Each round runs out of calls, no clock expires, and the next round comes before anything remembered is too old. */
  ghost predicate AllExhausted(m: Memory, rounds: seq<Round>, last: Clock, frame: seq<Bar>, tf: Timeframe,
                               identity: Identity, retention: nat)
    decreases |rounds|
  {
    rounds != [] ==>
      var r := rounds[0];
      var after := Refresh(m, frame, tf, identity, retention, r.clock, r.turns, r.now, []);
      var next := if |rounds| > 1 then rounds[1].clock else last;
      && (forall i :: !r.turns(i).expired) && after.outcome == Err(BudgetExhausted)
      && StagingCurrent(after.memory, identity, next) && CertificatesCurrent(after.memory, identity, next)
      && AllExhausted(after.memory, rounds[1..], last, frame, tf, identity, retention)
  }

  /** So k holes never need more than ceil(k / 8) refreshes: after j exhausted ones more than 8 j holes were pending,
      and exactly 8 j of them are settled. */
  lemma {:induction false} HolesRunOut(m: Memory, rounds: seq<Round>, last: Clock, frame: seq<Bar>, tf: Timeframe,
                                       identity: Identity, retention: nat)
    requires Increasing(frame) && rounds != [] && AllExhausted(m, rounds, last, frame, tf, identity, retention)
    ensures var k := PendingOnEntry(m, frame, tf, identity, rounds[0].clock);
            && CALL_BUDGET * |rounds| < k
            && PendingOnEntry(AfterRounds(m, rounds, frame, tf, identity, retention), frame, tf, identity, last)
              == k - CALL_BUDGET * |rounds|
    decreases |rounds|
  {
    var r := rounds[0];
    var after := Refresh(m, frame, tf, identity, retention, r.clock, r.turns, r.now, []);
    var next := if |rounds| > 1 then rounds[1].clock else last;
    ExhaustionSettlesEight(m, frame, tf, identity, retention, r.clock, r.turns, r.now, [], next);
    if |rounds| > 1 {
      HolesRunOut(after.memory, rounds[1..], last, frame, tf, identity, retention);
    } else {
      assert rounds[1..] == [];
    }
  }

  // ---- The bound on staged rows ----

  function StagedRows(m: Memory): nat { if m.staging.Some? then RowCount(m.staging.value.entries) else 0 }

  lemma {:induction false} KeepingShrinks(staged: seq<Entry>, signatures: set<Signature>)
    ensures RowCount(Keeping(staged, signatures)) <= RowCount(staged)
  {
    if staged != [] {
      var most, last := staged[..|staged| - 1], staged[|staged| - 1];
      KeepingShrinks(most, signatures);
      if last.signature in signatures {
        assert (Keeping(most, signatures) + [last])[..|Keeping(most, signatures)|] == Keeping(most, signatures);
      } else {
        assert Keeping(staged, signatures) == Keeping(most, signatures);
      }
    }
  }

  lemma {:induction false} WalkStagesWithin(p: Pass, frame: seq<Bar>, n: nat, tf: Timeframe, identity: Identity,
                                            limit: nat, turns: nat -> Turn)
    requires n <= |frame| && RowCount(p.staged) <= limit
    ensures RowCount(Walk(p, frame, n, tf, identity, limit, turns).pass.staged) <= limit
  {
    if n > 1 {
      WalkStagesWithin(p, frame, n - 1, tf, identity, limit, turns);
      var w := Walk(p, frame, n - 1, tf, identity, limit, turns);
      if w.Went? && IsHole(frame[n - 2], frame[n - 1], tf) {
        VisitStagesWithin(w.pass, frame[n - 2], frame[n - 1], tf, identity, limit, turns(n - 1));
      }
    }
  }

  lemma VisitStagesWithin(p: Pass, left: Bar, right: Bar, tf: Timeframe, identity: Identity, limit: nat, turn: Turn)
    requires RowCount(p.staged) <= limit
    ensures RowCount(Visit(p, left, right, tf, identity, limit, turn).pass.staged) <= limit
  {
    var q := Visit(p, left, right, tf, identity, limit, turn).pass;
    VisitStaging(p, left, right, tf, identity, limit, turn);
    if q.staged != p.staged {
      assert q.staged[..|p.staged|] == p.staged;
    }
  }

  /** Staged rows never exceed 32 times the retention count, however refreshes end. */
  lemma StagedRowsBounded(m: Memory, frame: seq<Bar>, tf: Timeframe, identity: Identity, retention: nat, clock: Clock,
                          turns: nat -> Turn, now: int, log: seq<Response>)
    requires StagedRows(m) <= 32 * retention
    ensures StagedRows(Refresh(m, frame, tf, identity, retention, clock, turns, now, log).memory) <= 32 * retention
  {
    var p := Begin(m, frame, tf, identity, clock, log);
    if StagingCurrent(m, identity, clock) {
      KeepingShrinks(m.staging.value.entries, AllHoles(frame, tf));
    }
    WalkStagesWithin(p, frame, |frame|, tf, identity, retention * 32, turns);
  }
}
