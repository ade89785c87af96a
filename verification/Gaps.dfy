/** Verifying the interior holes of a frame against broker range responses, a bounded number per refresh. */
module Gaps {
  import opened Wrappers
  import opened Bars
  import opened Validation

  datatype Identity = Identity(symbol: string, generation: nat)

  datatype Corner = Corner(time: int, open: real, high: real, low: real, close: real)

  /** The two rows on either side of a hole. */
  datatype Signature = Signature(left: Corner, right: Corner)

  datatype Entry = Entry(signature: Signature, rows: seq<Bar>)

  /** What the broker returned for a range, and the identity it was read under. */
  datatype Response = Response(identity: Identity, rows: seq<Raw>)

  datatype Rates = NoRates | Rates(rows: seq<Raw>, complete: bool)

  datatype Reply = Late | CallFailed | Replied(current: Identity, rates: Rates)

  /** What happens if the hole before one row is asked for: the budget clock, the call, the wall clock. */
  datatype Turn = Turn(expired: bool, reply: Reply, now: int)

  datatype GapError = BudgetExhausted | SpanExceeded | TimedOut | ReadFailed | SessionTransition | ReturnedNone
    | Invalid(fault: BarError) | MissingBoundaries | RowBudgetExhausted

  const CALL_BUDGET: nat := 8
  const CERTIFICATE_AGE: int := 3600

  datatype Pass = Pass(staged: seq<Entry>, remembered: set<Signature>, active: set<Signature>,
                       additions: seq<seq<Bar>>, calls: nat, log: seq<Response>)

  datatype Progress = Went(pass: Pass) | Stopped(error: GapError, pass: Pass)

  function CornerOf(b: Bar): Corner { Corner(b.time, b.open, b.high, b.low, b.close) }

  function SignatureOf(a: Bar, b: Bar): Signature { Signature(CornerOf(a), CornerOf(b)) }

  predicate IsHole(a: Bar, b: Bar, tf: Timeframe) { b.time - a.time > Seconds(tf) }

  function Lookup(staged: seq<Entry>, sig: Signature): Option<seq<Bar>> {
    if staged == [] then None
    else if staged[0].signature == sig then Some(staged[0].rows)
    else Lookup(staged[1..], sig)
  }

  function RowCount(staged: seq<Entry>): nat {
    if staged == [] then 0 else RowCount(staged[..|staged| - 1]) + |staged[|staged| - 1].rows|
  }

  function Keeping(staged: seq<Entry>, signatures: set<Signature>): seq<Entry> {
    if staged == [] then []
    else
      var last := staged[|staged| - 1];
      Keeping(staged[..|staged| - 1], signatures) + (if last.signature in signatures then [last] else [])
  }

  /** The signatures of the holes among the first n rows. */
  function Holes(s: seq<Bar>, n: nat, tf: Timeframe): set<Signature>
    requires n <= |s|
  {
    if n <= 1 then {}
    else Holes(s, n - 1, tf) + (if IsHole(s[n - 2], s[n - 1], tf) then {SignatureOf(s[n - 2], s[n - 1])} else {})
  }

  function AllHoles(s: seq<Bar>, tf: Timeframe): set<Signature> { Holes(s, |s|, tf) }

  predicate Boundaries(s: seq<Bar>, left: Bar, right: Bar) {
    s != [] && s[0].time == left.time && s[|s| - 1].time == right.time
  }

  predicate Changes(s: seq<Bar>, left: Bar, right: Bar)
    requires s != []
  {
    |s| > 2 || CornerOf(s[0]) != CornerOf(left) || CornerOf(s[|s| - 1]) != CornerOf(right)
  }

  // A range response that passed every check.
  function Accept(p: Pass, left: Bar, right: Bar, found: seq<Bar>, tf: Timeframe, limit: nat): Progress
    requires found != []
  {
    var sig := SignatureOf(left, right);
    var changes := Changes(found, left, right);
    if changes && RowCount(p.staged) + |found| > limit then Stopped(RowBudgetExhausted, p)
    else
      var closures := AllHoles(found, tf);
      Went(Pass(if changes then p.staged + [Entry(sig, found)] else p.staged,
                p.remembered + (if changes then {} else {sig}) + closures,
                p.active + {sig} + closures,
                p.additions + [found], p.calls + 1, p.log))
  }

  /** One range read under the guarded client, and the checks that make its answer authoritative. */
  function Checked(left: Bar, right: Bar, tf: Timeframe, identity: Identity,
                   turn: Turn): (r: Result<seq<Bar>, GapError>)
    ensures r.Ok? ==> Boundaries(r.value, left, right)
  {
    match turn.reply
    case Late => Err(TimedOut)
    case CallFailed => Err(ReadFailed)
    case Replied(current, rates) =>
      if current != identity then Err(SessionTransition)
      else if rates.NoRates? then Err(ReturnedNone)
      else
        match ValidateBars(rates.rows, rates.complete, identity.symbol, tf, turn.now)
        case Err(fault) => Err(Invalid(fault))
        case Ok(found) =>
          if |found| != |rates.rows| || !Boundaries(found, left, right) then Err(MissingBoundaries) else Ok(found)
  }

  function Logged(log: seq<Response>, identity: Identity, turn: Turn): seq<Response> {
    if turn.reply.Replied? && turn.reply.current == identity && turn.reply.rates.Rates? then
      log + [Response(identity, turn.reply.rates.rows)]
    else log
  }

  function Ask(p: Pass, left: Bar, right: Bar, tf: Timeframe, identity: Identity, limit: nat, turn: Turn): Progress {
    var q := p.(log := Logged(p.log, identity, turn));
    match Checked(left, right, tf, identity, turn)
    case Err(e) => Stopped(e, q)
    case Ok(found) => Accept(q, left, right, found, tf, limit)
  }

  // The widest hole that is looked into: 32 times the retention, counted in bars.
  function MaxSpan(tf: Timeframe, bars: nat): int {
    match tf
    case M5 => 300 * bars
    case M15 => 900 * bars
    case H1 => 3600 * bars
    case D1 => 86400 * bars
  }

  function Visit(p: Pass, left: Bar, right: Bar, tf: Timeframe, identity: Identity, limit: nat, turn: Turn): Progress {
    var sig := SignatureOf(left, right);
    match Lookup(p.staged, sig)
    case Some(rows) => Went(p.(active := p.active + {sig}, additions := p.additions + [rows]))
    case None =>
      if sig in p.remembered then Went(p.(active := p.active + {sig}))
      else if p.calls >= CALL_BUDGET || turn.expired then Stopped(BudgetExhausted, p)
      else if right.time - left.time > MaxSpan(tf, limit) then Stopped(SpanExceeded, p)
      else Ask(p, left, right, tf, identity, limit, turn)
  }

  /** The holes among the first n rows, visited from the oldest. */
  function Walk(p: Pass, frame: seq<Bar>, n: nat, tf: Timeframe, identity: Identity, limit: nat,
                turns: nat -> Turn): Progress
    requires n <= |frame|
  {
    if n <= 1 then Went(p)
    else
      match Walk(p, frame, n - 1, tf, identity, limit, turns)
      case Stopped(e, q) => Stopped(e, q)
      case Went(q) =>
        if IsHole(frame[n - 2], frame[n - 1], tf) then
          Visit(q, frame[n - 2], frame[n - 1], tf, identity, limit, turns(n - 1))
        else Went(q)
  }

  // ---- What is kept between refreshes ----

  datatype Staging = Staging(identity: Identity, entries: seq<Entry>, at: int)

  datatype Certificates = Certificates(identity: Identity, signatures: set<Signature>, at: int)

  datatype Memory = Memory(staging: Option<Staging>, certificates: Option<Certificates>)

  /** The monotonic clock as the refresh begins and as it ends. */
  datatype Clock = Clock(begun: int, ended: int)

  datatype Refreshed = Refreshed(memory: Memory, outcome: Result<seq<Bar>, GapError>, log: seq<Response>)

  predicate StagingCurrent(m: Memory, identity: Identity, clock: Clock) {
    m.staging.Some? && m.staging.value.identity == identity && clock.begun - m.staging.value.at < CERTIFICATE_AGE
  }

  predicate CertificatesCurrent(m: Memory, identity: Identity, clock: Clock) {
    m.certificates.Some? && m.certificates.value.identity == identity
    && clock.begun - m.certificates.value.at < CERTIFICATE_AGE
  }

  function StagingFor(m: Memory, frame: seq<Bar>, tf: Timeframe, identity: Identity, clock: Clock): Staging {
    if StagingCurrent(m, identity, clock) then
      Staging(identity, Keeping(m.staging.value.entries, AllHoles(frame, tf)), m.staging.value.at)
    else Staging(identity, [], clock.begun)
  }

  function CertificatesFor(m: Memory, identity: Identity, clock: Clock): Certificates {
    if CertificatesCurrent(m, identity, clock) then m.certificates.value else Certificates(identity, {}, clock.begun)
  }

  function Begin(m: Memory, frame: seq<Bar>, tf: Timeframe, identity: Identity, clock: Clock,
                 log: seq<Response>): Pass {
    Pass(StagingFor(m, frame, tf, identity, clock).entries, CertificatesFor(m, identity, clock).signatures, {}, [], 0,
         log)
  }

  function Concat(parts: seq<seq<Bar>>): seq<Bar> {
    if parts == [] then [] else Concat(parts[..|parts| - 1]) + parts[|parts| - 1]
  }

  // What a refresh has stored once some holes are verified and before it ends.
  function Stored(m: Memory, frame: seq<Bar>, tf: Timeframe, identity: Identity, clock: Clock, p: Pass): Memory {
    Memory(Some(Staging(identity, p.staged, StagingFor(m, frame, tf, identity, clock).at)),
           if p.calls == 0 then m.certificates
           else Some(Certificates(identity, p.remembered, CertificatesFor(m, identity, clock).at)))
  }

  function Refresh(m: Memory, frame: seq<Bar>, tf: Timeframe, identity: Identity, retention: nat, clock: Clock,
                   turns: nat -> Turn, now: int, log: seq<Response>): Refreshed {
    match Walk(Begin(m, frame, tf, identity, clock, log), frame, |frame|, tf, identity, retention * 32, turns)
    case Stopped(e, p) => Refreshed(Stored(m, frame, tf, identity, clock, p), Err(e), p.log)
    case Went(p) =>
      var at := if p.remembered != {} then CertificatesFor(m, identity, clock).at else clock.ended;
      Refreshed(Stored(m, frame, tf, identity, clock, p).(certificates := Some(Certificates(identity, p.active, at))),
                Ok(if p.additions == [] then frame else Merge(frame, Concat(p.additions), tf, now)), p.log)
  }

  lemma {:induction false} StopIsFinal(p: Pass, frame: seq<Bar>, n: nat, m: nat, tf: Timeframe, identity: Identity,
                                       limit: nat, turns: nat -> Turn)
    requires n <= m <= |frame| && Walk(p, frame, n, tf, identity, limit, turns).Stopped?
    ensures Walk(p, frame, m, tf, identity, limit, turns) == Walk(p, frame, n, tf, identity, limit, turns)
  {
    if n < m {
      StopIsFinal(p, frame, n, m - 1, tf, identity, limit, turns);
    }
  }

  datatype Key = Key(symbol: string, timeframe: Timeframe)

  /** The part of the history worker that verifies holes; it keeps its progress from one refresh to the next. */
  class GapVerifier {
    var staged: map<Key, Staging>
    var verified: map<Key, Certificates>
    const retention: Timeframe -> nat
    var log: seq<Response> // every range response so far; only the theorems look at it

    constructor (retention: Timeframe -> nat)
      ensures staged == map[] && verified == map[] && log == [] && this.retention == retention
    {
      staged, verified, log := map[], map[], [];
      this.retention := retention;
    }

    ghost function MemoryOf(key: Key): Memory
      reads this
    {
      Memory(if key in staged then Some(staged[key]) else None, if key in verified then Some(verified[key]) else None)
    }

    method CurrentHoles(frame: seq<Bar>, tf: Timeframe) returns (holes: set<Signature>)
      ensures holes == AllHoles(frame, tf)
    {
      holes := {};
      if frame != [] {
        for i := 1 to |frame|
          invariant holes == Holes(frame, i, tf)
        {
          if IsHole(frame[i - 1], frame[i], tf) {
            holes := holes + {SignatureOf(frame[i - 1], frame[i])};
          }
        }
      }
    }

    method ReadRange(left: Bar, right: Bar, tf: Timeframe, identity: Identity, turn: Turn)
      returns (r: Result<seq<Bar>, GapError>)
      modifies this`log
      ensures r == Checked(left, right, tf, identity, turn) && log == Logged(old(log), identity, turn)
    {
      if turn.reply.Late? {
        return Err(TimedOut);
      }
      if turn.reply.CallFailed? {
        return Err(ReadFailed);
      }
      if turn.reply.current != identity {
        return Err(SessionTransition);
      }
      if turn.reply.rates.NoRates? {
        return Err(ReturnedNone);
      }
      log := log + [Response(identity, turn.reply.rates.rows)];
      var validated := ValidateBars(turn.reply.rates.rows, turn.reply.rates.complete, identity.symbol, tf, turn.now);
      if validated.Err? {
        return Err(Invalid(validated.error));
      }
      if |validated.value| != |turn.reply.rates.rows| || !Boundaries(validated.value, left, right) {
        return Err(MissingBoundaries);
      }
      return Ok(validated.value);
    }

    predicate Saved(key: Key, p: Pass, identity: Identity, stagedAt: int, verifiedAt: int)
      reads this
    {
      && key in staged && staged[key] == Staging(identity, p.staged, stagedAt)
      && (p.calls > 0 ==> key in verified && verified[key] == Certificates(identity, p.remembered, verifiedAt))
    }

    method VisitHole(key: Key, p: Pass, left: Bar, right: Bar, identity: Identity, stagedAt: int, verifiedAt: int,
                     turn: Turn)
      returns (error: Option<GapError>, q: Pass)
      requires p.log == log && Saved(key, p, identity, stagedAt, verifiedAt)
      modifies this
      ensures (if error.Some? then Stopped(error.value, q) else Went(q))
           == Visit(p, left, right, key.timeframe, identity, retention(key.timeframe) * 32, turn)
      ensures log == q.log && Saved(key, q, identity, stagedAt, verifiedAt)
      ensures staged - {key} == old(staged) - {key} && verified - {key} == old(verified) - {key}
      ensures q.calls == 0 ==> verified == old(verified) && p.calls == 0
    {
      var limit := retention(key.timeframe) * 32;
      var sig := SignatureOf(left, right);
      q := p.(active := p.active + {sig});
      var known := Lookup(p.staged, sig);
      if known.Some? {
        q := q.(additions := q.additions + [known.value]);
        return None, q;
      }
      if sig in p.remembered {
        return None, q;
      }
      if p.calls >= CALL_BUDGET || turn.expired {
        return Some(BudgetExhausted), p;
      }
      if right.time - left.time > MaxSpan(key.timeframe, limit) {
        return Some(SpanExceeded), p;
      }
      var answer := ReadRange(left, right, key.timeframe, identity, turn);
      var asked := p.(log := Logged(p.log, identity, turn));
      if answer.Err? {
        return Some(answer.error), asked;
      }
      error, q := AcceptRange(key, asked, left, right, answer.value, identity, stagedAt, verifiedAt);
    }

    method AcceptRange(key: Key, p: Pass, left: Bar, right: Bar, found: seq<Bar>, identity: Identity, stagedAt: int,
                       verifiedAt: int)
      returns (error: Option<GapError>, q: Pass)
      requires p.log == log && Saved(key, p, identity, stagedAt, verifiedAt) && found != []
      modifies this`staged, this`verified
      ensures (if error.Some? then Stopped(error.value, q) else Went(q))
           == Accept(p, left, right, found, key.timeframe, retention(key.timeframe) * 32)
      ensures log == q.log && Saved(key, q, identity, stagedAt, verifiedAt)
      ensures staged - {key} == old(staged) - {key} && verified - {key} == old(verified) - {key}
      ensures q.calls == 0 ==> verified == old(verified)
    {
      var sig := SignatureOf(left, right);
      q := p.(active := p.active + {sig}, additions := p.additions + [found], calls := p.calls + 1);
      if Changes(found, left, right) {
        if RowCount(p.staged) + |found| > retention(key.timeframe) * 32 {
          return Some(RowBudgetExhausted), p;
        }
        q := q.(staged := p.staged + [Entry(sig, found)]);
        staged := staged[key := Staging(identity, q.staged, stagedAt)];
      } else {
        q := q.(remembered := q.remembered + {sig});
      }
      var closures := CurrentHoles(found, key.timeframe);
      q := q.(remembered := q.remembered + closures, active := q.active + closures);
      verified := verified[key := Certificates(identity, q.remembered, verifiedAt)];
      return None, q;
    }

    method VisitHoles(key: Key, start: Pass, frame: seq<Bar>, identity: Identity, stagedAt: int, verifiedAt: int,
                      turns: nat -> Turn)
      returns (error: Option<GapError>, p: Pass)
      requires start.log == log && start.calls == 0 && Saved(key, start, identity, stagedAt, verifiedAt)
      modifies this
      ensures (if error.Some? then Stopped(error.value, p) else Went(p))
           == Walk(start, frame, |frame|, key.timeframe, identity, retention(key.timeframe) * 32, turns)
      ensures log == p.log && Saved(key, p, identity, stagedAt, verifiedAt)
      ensures staged - {key} == old(staged) - {key} && verified - {key} == old(verified) - {key}
      ensures p.calls == 0 ==> verified == old(verified)
    {
      p := start;
      if |frame| <= 1 {
        return None, p;
      }
      var index := 1;
      while index < |frame|
        invariant 1 <= index <= |frame|
        invariant Walk(start, frame, index, key.timeframe, identity, retention(key.timeframe) * 32, turns) == Went(p)
        invariant p.log == log && Saved(key, p, identity, stagedAt, verifiedAt)
        invariant staged - {key} == old(staged) - {key} && verified - {key} == old(verified) - {key}
        invariant p.calls == 0 ==> verified == old(verified)
      {
        error, p := VisitRow(key, start, p, frame, index, identity, stagedAt, verifiedAt, turns);
        if error.Some? {
          StopIsFinal(start, frame, index + 1, |frame|, key.timeframe, identity, retention(key.timeframe) * 32, turns);
          return;
        }
        index := index + 1;
      }
      error := None;
    }

    method VisitRow(key: Key, ghost start: Pass, p: Pass, frame: seq<Bar>, index: nat, identity: Identity,
                    stagedAt: int, verifiedAt: int, turns: nat -> Turn)
      returns (error: Option<GapError>, q: Pass)
      requires 1 <= index < |frame| && p.log == log && Saved(key, p, identity, stagedAt, verifiedAt)
      requires Walk(start, frame, index, key.timeframe, identity, retention(key.timeframe) * 32, turns) == Went(p)
      modifies this
      ensures (if error.Some? then Stopped(error.value, q) else Went(q))
           == Walk(start, frame, index + 1, key.timeframe, identity, retention(key.timeframe) * 32, turns)
      ensures log == q.log && Saved(key, q, identity, stagedAt, verifiedAt)
      ensures staged - {key} == old(staged) - {key} && verified - {key} == old(verified) - {key}
      ensures q.calls == 0 ==> verified == old(verified) && p.calls == 0
    {
      error, q := None, p;
      if IsHole(frame[index - 1], frame[index], key.timeframe) {
        error, q := VisitHole(key, p, frame[index - 1], frame[index], identity, stagedAt, verifiedAt, turns(index));
      }
    }

    method BeginStaging(key: Key, frame: seq<Bar>, identity: Identity, clock: Clock)
      returns (entries: seq<Entry>, stagedAt: int)
      modifies this`staged
      ensures Staging(identity, entries, stagedAt)
                == StagingFor(old(MemoryOf(key)), frame, key.timeframe, identity, clock)
      ensures staged == old(staged)[key := Staging(identity, entries, stagedAt)]
    {
      entries, stagedAt := [], clock.begun;
      if key in staged && staged[key].identity == identity && clock.begun - staged[key].at < CERTIFICATE_AGE {
        var holes := CurrentHoles(frame, key.timeframe);
        entries, stagedAt := Keeping(staged[key].entries, holes), staged[key].at;
      }
      staged := staged[key := Staging(identity, entries, stagedAt)];
    }

    method VerifyGaps(symbol: string, tf: Timeframe, frame: seq<Bar>, identity: Identity, clock: Clock,
                      turns: nat -> Turn, now: int) returns (r: Result<seq<Bar>, GapError>)
      modifies this
      ensures var after := Refresh(old(MemoryOf(Key(symbol, tf))), frame, tf, identity, retention(tf), clock, turns,
                                   now, old(log));
              MemoryOf(Key(symbol, tf)) == after.memory && r == after.outcome && log == after.log
      ensures forall k | k != Key(symbol, tf) :: MemoryOf(k) == old(MemoryOf(k))
    {
      var key := Key(symbol, tf);
      var entries, stagedAt := BeginStaging(key, frame, identity, clock);
      var remembered, verifiedAt := {}, clock.begun;
      if key in verified && verified[key].identity == identity && clock.begun - verified[key].at < CERTIFICATE_AGE {
        remembered, verifiedAt := verified[key].signatures, verified[key].at;
      }
      var start := Pass(entries, remembered, {}, [], 0, log);
      assert start == Begin(old(MemoryOf(key)), frame, tf, identity, clock, log);
      var error, p := VisitHoles(key, start, frame, identity, stagedAt, verifiedAt, turns);
      assert MemoryOf(key) == Stored(old(MemoryOf(key)), frame, tf, identity, clock, p);
      forall k | k != key ensures MemoryOf(k) == old(MemoryOf(k)) {
        assert k in staged <==> k in staged - {key};
        assert k in verified <==> k in verified - {key};
        assert old(k in staged) <==> k in old(staged) - {key};
        assert old(k in verified) <==> k in old(verified) - {key};
      }
      if error.Some? {
        return Err(error.value);
      }
      verified := verified[key := Certificates(identity, p.active, if p.remembered != {} then verifiedAt
                                               else clock.ended)];
      if p.additions == [] {
        return Ok(frame);
      }
      return Ok(Merge(frame, Concat(p.additions), tf, now));
    }
  }
}
