/** One history file and the worker that refreshes it: pages, gap verification, then rows before marker. */
module Publication {
  import opened Wrappers
  import opened Text
  import opened Bars
  import opened Validation
  import opened Gaps
  import opened GapSoundness
  import opened GapTheorems
  import opened Paging
  import opened Reader

  /** Rows on disk are sound, ordered, closed and of one source, and a marker names exactly that source. */
  predicate Truthful(d: Disk, tf: Timeframe, now: int) {
    && (d.csv.Some? ==>
          var rows := d.csv.value;
          rows != [] && Increasing(rows) && AllClosed(rows, tf, now) && RowsOf(rows, rows[0].source, tf))
    && (d.marker.Some? ==> d.csv.Some? && d.csv.value != [] && d.csv.value[0].source == d.marker.value)
  }

  /** From any moment on, a truthful disk with a marker is accepted by a reader exactly when its rows lie on the grid
      (always, but for daily bars) and stripping does not change the marker. */
  lemma TruthfulIsReadable(d: Disk, tf: Timeframe, published: int, now: int)
    requires Truthful(d, tf, published) && d.marker.Some? && published <= now
    ensures Read(d, true, tf, now) == Ok(d.csv.value)
        <==> Aligned(d.csv.value, tf) && Strip(d.marker.value) != "" && Strip(d.marker.value) == d.marker.value
    ensures tf != D1 ==> Aligned(d.csv.value, tf)
  {
    AcceptedIff(d.csv.value, d.marker.value, tf, now);
  }

  /** Any state a process leaves on disk is one the next process can start from, at the same time or later. */
  lemma LaterTruth(d: Disk, tf: Timeframe, now: int, later: int)
    requires Truthful(d, tf, now) && now <= later
    ensures Truthful(d, tf, later)
  {}

  /** The unique source of the rows in a file, if there is one. */
  function CachedSource(csv: Option<seq<Bar>>): Option<string> {
    if csv.Some? && csv.value != [] && forall b | b in csv.value :: b.source == csv.value[0].source
    then Some(csv.value[0].source) else None
  }

  class HistoryFile {
    const timeframe: Timeframe
    var csv: Option<seq<Bar>>
    var marker: Option<string>
    ghost var clock: int
    ghost var trace: seq<Disk> // every state the disk has been in, so every state a crash can leave

    // A process starts from whatever its predecessor left behind, however that one ended.
    constructor (timeframe: Timeframe, found: Disk, ghost now: int)
      requires Truthful(found, timeframe, now)
      ensures Valid() && this.timeframe == timeframe && clock == now && csv == found.csv && marker == found.marker
      ensures trace == [found]
    {
      this.timeframe := timeframe;
      csv, marker := found.csv, found.marker;
      trace, clock := [found], now;
    }

    ghost predicate Valid()
      reads this
    {
      && trace != [] && trace[|trace| - 1] == Disk(csv, marker)
      && forall d | d in trace :: Truthful(d, timeframe, clock)
    }

    method Revoke()
      requires Valid()
      modifies this
      ensures Valid() && csv == old(csv) && marker == None && clock == old(clock) && old(trace) <= trace
    {
      if marker.Some? {
        assert Truthful(trace[|trace| - 1], timeframe, clock);
        marker := None;
        trace := trace + [Disk(csv, marker)];
      }
    }

    method WriteRows(rows: seq<Bar>, now: int)
      requires Valid() && clock <= now && rows != [] && Increasing(rows) && AllClosed(rows, timeframe, now)
      requires RowsOf(rows, rows[0].source, timeframe) && (marker.Some? ==> marker.value == rows[0].source)
      modifies this
      ensures Valid() && csv == Some(rows) && marker == old(marker) && clock == now && old(trace) <= trace
    {
      forall d | d in trace ensures Truthful(d, timeframe, now) {
        LaterTruth(d, timeframe, clock, now);
      }
      csv, clock := Some(rows), now;
      trace := trace + [Disk(csv, marker)];
    }

    method Publish(source: string)
      requires Valid() && csv.Some? && csv.value != [] && csv.value[0].source == source
      modifies this
      ensures Valid() && csv == old(csv) && marker == Some(source) && clock == old(clock) && old(trace) <= trace
    {
      assert Truthful(trace[|trace| - 1], timeframe, clock);
      marker := Some(source);
      trace := trace + [Disk(csv, marker)];
    }
  }

  datatype RefreshError = Paging(page: PageError) | NoBars | BadBars(fault: BarError) | Moved | Gap(gap: GapError)

  datatype Status = Ready | Insufficient | Failed(error: RefreshError)

  /** The account generation as it is read before merging, before writing and after writing. */
  datatype Watch = Watch(beforeMerge: nat, beforeWrite: nat, afterWrite: nat)

  /** The clock as rows are merged and as holes are verified. */
  datatype Moments = Moments(merged: int, verified: int, gaps: Clock)

  function Frame(cached: Option<seq<Bar>>, rows: seq<Raw>, source: string, tf: Timeframe, retention: nat,
                 now: int): seq<Bar>
    requires AllComplete(rows)
  {
    var kept := if CachedSource(cached) == Some(source) then cached.value else [];
    Tail(Merge(kept, ToBars(rows, source), tf, now), retention)
  }

  lemma FrameIsSound(cached: Option<seq<Bar>>, rows: seq<Raw>, source: string, tf: Timeframe, retention: nat,
                     clock: int, now: int)
    requires clock <= now && Fault(rows, true, tf).None?
    requires cached.Some? ==> cached.value != [] && RowsOf(cached.value, cached.value[0].source, tf)
    ensures AllComplete(rows)
    ensures var f := Frame(cached, rows, source, tf, retention, now);
            Increasing(f) && AllClosed(f, tf, now) && RowsOf(f, source, tf)
  {
    FaultFree(rows, true, source, tf);
    var kept := if CachedSource(cached) == Some(source) then cached.value else [];
    MergeMeaning(kept, ToBars(rows, source), tf, now);
    TailMembers(Merge(kept, ToBars(rows, source), tf, now), retention);
  }

  lemma TailMembers(s: seq<Bar>, n: nat)
    requires Increasing(s)
    ensures Increasing(Tail(s, n)) && forall b | b in Tail(s, n) :: b in s
  {}

  lemma LaterStore(m: Memory, log: seq<Response>, tf: Timeframe, now: int, later: int)
    requires SoundStore(m, log, tf, now) && now <= later
    ensures SoundStore(m, log, tf, later)
  {
    if m.staging.Some? {
      forall e | e in m.staging.value.entries ensures SoundEntry(e, log, m.staging.value.identity, tf, later) {
        assert SoundEntry(e, log, m.staging.value.identity, tf, now);
      }
    }
  }

  datatype Settings = Settings(key: Key, minimum: nat, margin: nat, pageSize: nat)

  /** What one refresh does to a file, given what the disk and the gap memory hold and how every call goes. */
  datatype Attempt = Attempt(status: Status, disk: Disk)

  function Give(csv: Option<seq<Bar>>, error: RefreshError): Attempt { Attempt(Failed(error), Disk(csv, None)) }

  function Attempted(csv: Option<seq<Bar>>, m: Memory, log: seq<Response>, settings: Settings, turns: nat -> PageTurn,
                     watch: Watch, moments: Moments, gapTurns: nat -> Turn): Attempt
    requires settings.pageSize > 0
  {
    var tf, retention := settings.key.timeframe, settings.minimum + settings.margin;
    match Continue([], retention + 1, settings.pageSize, turns)
    case Err(e) => Give(csv, Paging(e))
    case Ok(pages) =>
      if Refusal(pages, tf, watch).Some? then Give(csv, Refusal(pages, tf, watch).value)
      else Merged(csv, m, log, pages, settings, watch, moments, gapTurns)
  }

  /** Why pages that were read are not merged. */
  function Refusal(pages: Paged, tf: Timeframe, watch: Watch): Option<RefreshError> {
    var rows := Rows(pages.requests);
    if pages.requests == [] || rows == [] then Some(NoBars)
    else if Fault(rows, true, tf).Some? then Some(BadBars(Fault(rows, true, tf).value))
    else if watch.beforeMerge != pages.requests[0].identity.generation then Some(Moved)
    else None
  }

  function Merged(csv: Option<seq<Bar>>, m: Memory, log: seq<Response>, pages: Paged, settings: Settings, watch: Watch,
                  moments: Moments, gapTurns: nat -> Turn): Attempt
    requires Refusal(pages, settings.key.timeframe, watch).None?
  {
    var tf, retention := settings.key.timeframe, settings.minimum + settings.margin;
    var rows, identity := Rows(pages.requests), pages.requests[0].identity;
    assert AllComplete(rows) by { FaultFree(rows, true, identity.symbol, tf); }
    var frame := Frame(csv, rows, identity.symbol, tf, retention, moments.merged);
    match Refresh(m, frame, tf, identity, retention, moments.gaps, gapTurns, moments.verified, log).outcome
    case Err(e) => Give(csv, Gap(e))
    case Ok(verified) =>
      if watch.beforeWrite != identity.generation then Give(csv, Moved)
      else Concluded(csv, Tail(verified, retention), pages, rows, identity, settings, watch, moments)
  }

  predicate Enough(final: seq<Bar>, pages: Paged, rows: seq<Raw>, settings: Settings, now: int)
    requires AllComplete(rows)
  {
    |final| >= settings.minimum
    && (!pages.exhausted || |KeepClosed(ToBars(rows, ""), settings.key.timeframe, now)| >= settings.minimum)
  }

  function Concluded(csv: Option<seq<Bar>>, final: seq<Bar>, pages: Paged, rows: seq<Raw>, identity: Identity,
                     settings: Settings, watch: Watch, moments: Moments): Attempt
    requires AllComplete(rows)
  {
    if final == [] then Attempt(Insufficient, Disk(csv, None))
    else if watch.afterWrite != identity.generation then Give(Some(final), Moved)
    else if Enough(final, pages, rows, settings, moments.verified) then
      Attempt(Ready, Disk(Some(final), Some(identity.symbol)))
    else Attempt(Insufficient, Disk(Some(final), None))
  }

  class HistoryWorker {
    const settings: Settings
    const file: HistoryFile
    const gaps: GapVerifier
    ghost var clock: int

    constructor (settings: Settings, found: Disk, ghost now: int)
      requires settings.minimum > 0 && settings.pageSize > 0 && Truthful(found, settings.key.timeframe, now)
      ensures Valid() && fresh(file) && fresh(gaps) && this.settings == settings && clock == now
      ensures Disk(file.csv, file.marker) == found && gaps.MemoryOf(settings.key) == Memory(None, None)
    {
      this.settings := settings;
      var retention := settings.minimum + settings.margin;
      var f := new HistoryFile(settings.key.timeframe, found, now);
      var g := new GapVerifier(_ => retention);
      file, gaps, clock := f, g, now;
    }

    ghost predicate Valid()
      reads this, file, gaps
    {
      && file.Valid() && file.timeframe == settings.key.timeframe && settings.pageSize > 0 && settings.minimum > 0
      && gaps.retention(settings.key.timeframe) == settings.minimum + settings.margin
      && SoundStore(gaps.MemoryOf(settings.key), gaps.log, settings.key.timeframe, clock) && file.clock <= clock
    }

    // One page under the guard; a page of another source than the cached rows takes the marker away before it is read.
    method ReadOnePage(requests: seq<Request>, requested: nat, cached: Option<string>, turn: PageTurn)
      returns (page: Result<Request, PageError>)
      requires file.Valid()
      modifies file
      ensures page == ReadPage(requests, requested, turn)
      ensures file.Valid() && file.csv == old(file.csv) && file.clock == old(file.clock)
      ensures old(file.trace) <= file.trace
      ensures file.marker == old(file.marker) || file.marker == None
      ensures page.Ok? && cached != Some(page.value.identity.symbol) ==> file.marker == None
    {
      page := ReadPage(requests, requested, turn);
      var expected := if requests == [] then None else Some(requests[|requests| - 1].identity);
      if !turn.expired && !turn.busy && Permitted(expected, turn.reply.current)
        && cached != Some(turn.reply.current.value.symbol) {
        file.Revoke();
      }
    }

    method FetchPages(target: nat, cached: Option<string>, turns: nat -> PageTurn) returns (r: Result<Paged, PageError>)
      requires file.Valid() && settings.pageSize > 0
      modifies file
      ensures r == Continue([], target, settings.pageSize, turns)
      ensures file.Valid() && file.csv == old(file.csv) && file.clock == old(file.clock)
      ensures old(file.trace) <= file.trace
      ensures file.marker == old(file.marker) || file.marker == None
      ensures r.Ok? && r.value.requests != [] && cached != Some(r.value.requests[0].identity.symbol)
              ==> file.marker == None
    {
      var requests: seq<Request> := [];
      while |Rows(requests)| < target
        invariant Continue([], target, settings.pageSize, turns) == Continue(requests, target, settings.pageSize, turns)
        invariant file.Valid() && file.csv == old(file.csv) && file.clock == old(file.clock)
        invariant old(file.trace) <= file.trace
        invariant file.marker == old(file.marker) || file.marker == None
        invariant requests != [] && cached != Some(requests[0].identity.symbol) ==> file.marker == None
        decreases target - |Rows(requests)|
      {
        ContinueUnfolds(requests, target, settings.pageSize, turns);
        var page := ReadOnePage(requests, Min(settings.pageSize, target - |Rows(requests)|), cached, turns(|requests|));
        if page.Err? {
          return Err(page.error);
        }
        RowsAppend(requests, page.value);
        requests := requests + [page.value];
        if page.value.rows == [] {
          return Ok(Paged(requests, true));
        }
      }
      return Ok(Paged(requests, false));
    }

    /** Writes what was verified: the rows first, the marker only once they are on disk. */
    method Store(rows: seq<Bar>, source: string, ready: bool, generation: nat, watch: Watch, now: int)
      returns (r: Status)
      requires file.Valid() && file.clock <= now && Increasing(rows) && AllClosed(rows, file.timeframe, now)
      requires RowsOf(rows, source, file.timeframe) && (file.marker.Some? ==> file.marker.value == source)
      requires ready ==> rows != []
      modifies file
      ensures file.Valid() && old(file.trace) <= file.trace && old(file.clock) <= file.clock <= now
      ensures file.csv == if rows == [] then old(file.csv) else Some(rows)
      ensures r == if rows != [] && watch.afterWrite != generation then Failed(Moved) else if ready then Ready
        else Insufficient
      ensures file.marker == if r.Ready? then Some(source) else None
    {
      if rows == [] {
        file.Revoke();
      } else {
        file.WriteRows(rows, now);
        if watch.afterWrite != generation {
          file.Revoke();
          return Failed(Moved);
        }
        if ready {
          file.Publish(source);
        } else {
          file.Revoke();
        }
      }
      r := if ready then Ready else Insufficient;
    }

    /** One refresh of the file. Every state it puts on disk is truthful, so whatever a crash leaves behind is too. */
    method RefreshFile(turns: nat -> PageTurn, watch: Watch, moments: Moments, gapTurns: nat -> Turn)
      returns (status: Status)
      requires Valid() && clock <= moments.merged <= moments.verified && ClocksUpTo(gapTurns, moments.verified)
      modifies this`clock, file, gaps
      ensures Valid() && old(file.trace) <= file.trace && clock == moments.verified
      ensures Attempt(status, Disk(file.csv, file.marker))
           == Attempted(old(file.csv), old(gaps.MemoryOf(settings.key)), old(gaps.log), settings, turns, watch, moments,
                        gapTurns)
    {
      LaterStore(gaps.MemoryOf(settings.key), gaps.log, settings.key.timeframe, clock, moments.verified);
      clock := moments.verified;
      assert Valid();
      var retention := settings.minimum + settings.margin;
      var cached := CachedSource(file.csv);
      var paged := FetchPages(retention + 1, cached, turns);
      if paged.Err? {
        file.Revoke();
        return Failed(Paging(paged.error));
      }
      status := Verify(paged.value, cached, turns, watch, moments, gapTurns);
    }

    method Verify(pages: Paged, cached: Option<string>, ghost turns: nat -> PageTurn, watch: Watch, moments: Moments,
                  gapTurns: nat -> Turn)
      returns (status: Status)
      requires Valid() && file.clock <= moments.merged <= moments.verified == clock
      requires ClocksUpTo(gapTurns, moments.verified)
      requires Continue([], settings.minimum + settings.margin + 1, settings.pageSize, turns) == Ok(pages)
      requires cached == CachedSource(file.csv)
      requires pages.requests != [] && cached != Some(pages.requests[0].identity.symbol) ==> file.marker == None
      modifies file, gaps
      ensures Valid() && old(file.trace) <= file.trace
      ensures Attempt(status, Disk(file.csv, file.marker))
           == Attempted(old(file.csv), old(gaps.MemoryOf(settings.key)), old(gaps.log), settings, turns, watch, moments,
                        gapTurns)
    {
      var refusal := Refusal(pages, settings.key.timeframe, watch);
      if refusal.Some? {
        file.Revoke();
        return Failed(refusal.value);
      }
      status := MergePages(pages, watch, moments, gapTurns);
    }

    method MergePages(pages: Paged, watch: Watch, moments: Moments, gapTurns: nat -> Turn) returns (status: Status)
      requires Valid() && file.clock <= moments.merged <= moments.verified == clock
      requires ClocksUpTo(gapTurns, moments.verified)
      requires Refusal(pages, settings.key.timeframe, watch).None?
      requires CachedSource(file.csv) != Some(pages.requests[0].identity.symbol) ==> file.marker == None
      modifies file, gaps
      ensures Valid() && old(file.trace) <= file.trace
      ensures Attempt(status, Disk(file.csv, file.marker))
           == Merged(old(file.csv), old(gaps.MemoryOf(settings.key)), old(gaps.log), pages, settings, watch, moments,
                     gapTurns)
    {
      var tf, retention := settings.key.timeframe, settings.minimum + settings.margin;
      var rows, identity := Rows(pages.requests), pages.requests[0].identity;
      assert Truthful(file.trace[|file.trace| - 1], tf, file.clock);
      FrameIsSound(file.csv, rows, identity.symbol, tf, retention, file.clock, moments.merged);
      var frame := Frame(file.csv, rows, identity.symbol, tf, retention, moments.merged);
      assert AllClosed(frame, tf, moments.verified);
      var verified := VerifyFrame(frame, identity, moments, gapTurns);
      if verified.Err? {
        file.Revoke();
        return Failed(Gap(verified.error));
      }
      status := StoreVerified(verified.value, pages, rows, identity, watch, moments);
    }

    method StoreVerified(verified: seq<Bar>, pages: Paged, rows: seq<Raw>, identity: Identity, watch: Watch,
                         moments: Moments) returns (status: Status)
      requires Valid() && moments.verified == clock && AllComplete(rows)
      requires Increasing(verified) && AllClosed(verified, file.timeframe, clock)
      requires RowsOf(verified, identity.symbol, file.timeframe)
      requires file.marker.Some? ==> file.marker.value == identity.symbol
      modifies file
      ensures Valid() && old(file.trace) <= file.trace
      ensures Attempt(status, Disk(file.csv, file.marker))
           == if watch.beforeWrite != identity.generation then Give(old(file.csv), Moved)
              else Concluded(old(file.csv), Tail(verified, settings.minimum + settings.margin), pages, rows, identity,
                             settings, watch, moments)
    {
      TailMembers(verified, settings.minimum + settings.margin);
      var final := Tail(verified, settings.minimum + settings.margin);
      if watch.beforeWrite != identity.generation {
        file.Revoke();
        return Failed(Moved);
      }
      status := Store(final, identity.symbol, Enough(final, pages, rows, settings, moments.verified),
                      identity.generation, watch, moments.verified);
    }

    method VerifyFrame(frame: seq<Bar>, identity: Identity, moments: Moments, gapTurns: nat -> Turn)
      returns (r: Result<seq<Bar>, GapError>)
      requires Valid() && moments.verified == clock && ClocksUpTo(gapTurns, moments.verified)
      requires Increasing(frame) && AllClosed(frame, settings.key.timeframe, clock)
      requires RowsOf(frame, identity.symbol, settings.key.timeframe)
      modifies gaps
      ensures Valid()
      ensures r == Refresh(old(gaps.MemoryOf(settings.key)), frame, settings.key.timeframe, identity,
                           settings.minimum + settings.margin,
                           moments.gaps, gapTurns, moments.verified, old(gaps.log)).outcome
      ensures r.Ok? ==> Increasing(r.value) && AllClosed(r.value, settings.key.timeframe, clock)
                        && RowsOf(r.value, identity.symbol, settings.key.timeframe)
    {
      ghost var before, log := gaps.MemoryOf(settings.key), gaps.log;
      r := gaps.VerifyGaps(settings.key.symbol, settings.key.timeframe, frame, identity, moments.gaps, gapTurns,
                           moments.verified);
      RefreshKeeps(before, frame, settings, identity, moments, gapTurns, log);
    }
  }

  // What the worker needs to know of a refresh of its key.
  lemma RefreshKeeps(m: Memory, frame: seq<Bar>, settings: Settings, identity: Identity, moments: Moments,
                     gapTurns: nat -> Turn, log: seq<Response>)
    requires ClocksUpTo(gapTurns, moments.verified) && SoundStore(m, log, settings.key.timeframe, moments.verified)
    requires Increasing(frame) && AllClosed(frame, settings.key.timeframe, moments.verified)
    requires RowsOf(frame, identity.symbol, settings.key.timeframe)
    ensures var tf := settings.key.timeframe;
            var after := Refresh(m, frame, tf, identity, settings.minimum + settings.margin, moments.gaps, gapTurns,
                                 moments.verified, log);
            && SoundStore(after.memory, after.log, tf, moments.verified)
            && (after.outcome.Ok? ==>
                  Increasing(after.outcome.value) && AllClosed(after.outcome.value, tf, moments.verified)
                  && RowsOf(after.outcome.value, identity.symbol, tf))
  {
    var tf, retention := settings.key.timeframe, settings.minimum + settings.margin;
    RefreshKeepsStore(m, frame, tf, identity, retention, moments.gaps, gapTurns, moments.verified, log);
    if Refresh(m, frame, tf, identity, retention, moments.gaps, gapTurns, moments.verified, log).outcome.Ok? {
      RefreshKeepsRows(m, frame, tf, identity, retention, moments.gaps, gapTurns, moments.verified, log);
    }
  }
}
