/** The durable bar archive: rows by key and time, and certificates that a range holds exactly what its source held. */
module Archive {
  import opened Wrappers
  import opened Text

  datatype Row = Row(time: int, open: real, high: real, low: real, close: real, volume: real, spread: real,
                     realVolume: real)

  /** A submitted record; None is a cell that is no finite number or no whole UTC second. */
  datatype Record = Record(time: Option<int>, open: Option<real>, high: Option<real>, low: Option<real>,
                           close: Option<real>, volume: Option<real>, spread: Option<real>, realVolume: Option<real>)

  datatype Key = Key(session: string, source: string, symbol: string, timeframe: string)

  datatype Span = Span(key: Key, start: int, end: int)

  /** A digest of rows; different rows have different digests. */
  datatype Digest = Sha256(content: seq<Row>)

  datatype Certificate = Certificate(count: nat, digest: Digest)

  datatype ArchiveError = BadIdentity | BadTime | BadPrices | BadVolumes | DuplicateTimes | EmptyFrame | BadRange
    | OverLimit | OutsideRange | ContentDiffers

  datatype At = At(key: Key, time: int)

  datatype Db = Db(bars: map<At, Row>, coverage: map<Span, Certificate>)

  const EMPTY: Db := Db(map[], map[])

  predicate GoodName(s: string) { Strip(s) != "" && |s| <= 256 }

  predicate GoodKey(k: Key) {
    GoodName(k.session) && GoodName(k.source) && GoodName(k.symbol) && GoodName(k.timeframe)
  }

  // ---- Canonical rows ----

  function ToRow(r: Record): Result<Row, ArchiveError> {
    if r.time.None? then Err(BadTime)
    else if r.open.None? || r.high.None? || r.low.None? || r.close.None? then Err(BadPrices)
    else if r.high.value < r.open.value || r.high.value < r.low.value || r.high.value < r.close.value then
      Err(BadPrices)
    else if r.low.value > r.open.value || r.low.value > r.high.value || r.low.value > r.close.value then Err(BadPrices)
    else if r.volume.None? || r.spread.None? || r.realVolume.None? then Err(BadVolumes)
    else if r.volume.value < 0.0 || r.spread.value < 0.0 || r.realVolume.value < 0.0 then Err(BadVolumes)
    else Ok(Row(r.time.value, r.open.value, r.high.value, r.low.value, r.close.value, r.volume.value, r.spread.value,
                r.realVolume.value))
  }

  function ToRows(frame: seq<Record>): Result<seq<Row>, ArchiveError> {
    if frame == [] then Ok([])
    else
      match ToRows(frame[..|frame| - 1])
      case Err(e) => Err(e)
      case Ok(rows) =>
        match ToRow(frame[|frame| - 1])
        case Err(e) => Err(e)
        case Ok(row) => Ok(rows + [row])
  }

  predicate Distinct(rows: seq<Row>) { forall i, j | 0 <= i < j < |rows| :: rows[i].time != rows[j].time }

  predicate Ascending(rows: seq<Row>) { forall i, j | 0 <= i < j < |rows| :: rows[i].time < rows[j].time }

  function InsertRow(r: Row, rows: seq<Row>): seq<Row> {
    if rows == [] || r.time <= rows[0].time then [r] + rows else [rows[0]] + InsertRow(r, rows[1..])
  }

  function SortRows(rows: seq<Row>): seq<Row> {
    if rows == [] then [] else InsertRow(rows[0], SortRows(rows[1..]))
  }

  function Canonical(frame: seq<Record>): Result<seq<Row>, ArchiveError> {
    if frame == [] then Err(EmptyFrame)
    else
      match ToRows(frame)
      case Err(e) => Err(e)
      case Ok(rows) => if Distinct(rows) then Ok(SortRows(rows)) else Err(DuplicateTimes)
  }

  lemma {:induction false} InsertRowMembers(r: Row, rows: seq<Row>)
    ensures multiset(InsertRow(r, rows)) == multiset([r] + rows)
  {
    if rows != [] && r.time > rows[0].time {
      assert rows == [rows[0]] + rows[1..];
      InsertRowMembers(r, rows[1..]);
    }
  }

  lemma {:induction false} InsertRowMeaning(r: Row, rows: seq<Row>)
    requires Ascending(rows) && forall x | x in rows :: x.time != r.time
    ensures Ascending(InsertRow(r, rows)) && multiset(InsertRow(r, rows)) == multiset([r] + rows)
  {
    InsertRowMembers(r, rows);
    if rows != [] && r.time > rows[0].time {
      InsertRowMeaning(r, rows[1..]);
      var more := InsertRow(r, rows[1..]);
      forall j | 0 <= j < |more| ensures rows[0].time < more[j].time {
        assert more[j] in multiset(more);
        assert more[j] == r || more[j] in rows[1..];
      }
    }
  }

  lemma {:induction false} SortRowsMeaning(rows: seq<Row>)
    requires Distinct(rows)
    ensures Ascending(SortRows(rows)) && multiset(SortRows(rows)) == multiset(rows)
  {
    if rows != [] {
      assert rows == [rows[0]] + rows[1..];
      SortRowsMeaning(rows[1..]);
      forall x | x in SortRows(rows[1..]) ensures x.time != rows[0].time {
        assert x in multiset(rows[1..]);
      }
      InsertRowMeaning(rows[0], SortRows(rows[1..]));
    }
  }

  lemma {:induction false} ToRowsSize(frame: seq<Record>)
    requires ToRows(frame).Ok?
    ensures |ToRows(frame).value| == |frame|
  {
    if frame != [] {
      ToRowsSize(frame[..|frame| - 1]);
    }
  }

  /** An accepted frame becomes the same rows in ascending time. */
  lemma CanonicalMeaning(frame: seq<Record>)
    requires Canonical(frame).Ok?
    ensures var rows := Canonical(frame).value;
            rows != [] && |rows| == |frame| && Ascending(rows) && multiset(rows) == multiset(ToRows(frame).value)
  {
    var rows := ToRows(frame).value;
    ToRowsSize(frame);
    SortRowsMeaning(rows);
    assert |multiset(SortRows(rows))| == |SortRows(rows)| && |multiset(rows)| == |rows|;
  }

  // ---- The tables ----

  /** The rows of a key between two times, in order. */
  function RangeRows(bars: map<At, Row>, key: Key, start: int, end: int): seq<Row>
    decreases end - start
  {
    if start > end then []
    else (if At(key, start) in bars then [bars[At(key, start)]] else []) + RangeRows(bars, key, start + 1, end)
  }

  function Put(bars: map<At, Row>, key: Key, rows: seq<Row>): map<At, Row> {
    if rows == [] then bars
    else Put(bars, key, rows[..|rows| - 1])[At(key, rows[|rows| - 1].time) := rows[|rows| - 1]]
  }

  predicate Meets(s: Span, key: Key, first: int, last: int) { s.key == key && s.start <= last && s.end >= first }

  function Upsert(db: Db, key: Key, frame: seq<Record>): (Db, Result<nat, ArchiveError>) {
    if !GoodKey(key) then (db, Err(BadIdentity))
    else
      match Canonical(frame)
      case Err(e) => (db, Err(e))
      case Ok(rows) =>
        CanonicalMeaning(frame);
        (Db(Put(db.bars, key, rows), map s | s in db.coverage && !Meets(s, key, rows[0].time, rows[|rows| - 1].time) ::
            db.coverage[s]),
         Ok(|rows|))
  }

  function MarkCompleted(db: Db, key: Key, start: int, end: int,
                         frame: seq<Record>): (Db, Result<Certificate, ArchiveError>) {
    if !GoodKey(key) then (db, Err(BadIdentity))
    else
      match Canonical(frame)
      case Err(e) => (db, Err(e))
      case Ok(source) =>
        if start > end || exists r | r in source :: r.time < start || r.time > end then (db, Err(OutsideRange))
        else if RangeRows(db.bars, key, start, end) != source then (db, Err(ContentDiffers))
        else
          var c := Certificate(|source|, Sha256(source));
          (db.(coverage := db.coverage[Span(key, start, end) := c]), Ok(c))
  }

  function Take(rows: seq<Row>, n: nat): seq<Row> { if |rows| <= n then rows else rows[..n] }

  function ReadRange(db: Db, key: Key, start: int, end: int, limit: int): Result<seq<Row>, ArchiveError> {
    if !GoodKey(key) then Err(BadIdentity)
    else if start > end || !(1 <= limit <= 100000) then Err(BadRange)
    else
      var rows := Take(RangeRows(db.bars, key, start, end), limit + 1);
      if |rows| > limit then Err(OverLimit) else Ok(rows)
  }

  // ---- Certificates ----

  /** Every certificate describes the stored rows of its key and range exactly; every row lies under its own time. */
  predicate Truthful(db: Db) {
    && (forall s | s in db.coverage ::
          s.start <= s.end && GoodKey(s.key)
          && db.coverage[s]
            == Certificate(|RangeRows(db.bars, s.key, s.start, s.end)|,
                           Sha256(RangeRows(db.bars, s.key, s.start, s.end))))
    && (forall a | a in db.bars :: db.bars[a].time == a.time)
  }

  lemma {:induction false} RangeUntouched(bars: map<At, Row>, after: map<At, Row>, key: Key, start: int, end: int)
    requires forall t | start <= t <= end :: (At(key, t) in bars <==> At(key, t) in after)
    requires forall t | start <= t <= end && At(key, t) in bars :: bars[At(key, t)] == after[At(key, t)]
    ensures RangeRows(bars, key, start, end) == RangeRows(after, key, start, end)
    decreases end - start
  {
    if start <= end {
      RangeUntouched(bars, after, key, start + 1, end);
    }
  }

  lemma {:induction false} PutMeaning(bars: map<At, Row>, key: Key, rows: seq<Row>, a: At)
    requires Distinct(rows)
    ensures (a in Put(bars, key, rows)) <==> a in bars || (a.key == key && exists r :: r in rows && r.time == a.time)
    ensures forall r | r in rows && a == At(key, r.time) :: Put(bars, key, rows)[a] == r
    ensures a in bars && !(a.key == key && exists r :: r in rows && r.time == a.time)
            ==> Put(bars, key, rows)[a] == bars[a]
  {
    if rows != [] {
      var last := rows[|rows| - 1];
      PutMeaning(bars, key, rows[..|rows| - 1], a);
      assert rows == rows[..|rows| - 1] + [last];
    }
  }

  lemma SpanUntouched(bars: map<At, Row>, key: Key, rows: seq<Row>, s: Span)
    requires rows != [] && Ascending(rows) && !Meets(s, key, rows[0].time, rows[|rows| - 1].time)
    ensures RangeRows(Put(bars, key, rows), s.key, s.start, s.end) == RangeRows(bars, s.key, s.start, s.end)
  {
    var after := Put(bars, key, rows);
    forall t | s.start <= t <= s.end
      ensures At(s.key, t) in bars <==> At(s.key, t) in after
      ensures At(s.key, t) in bars ==> bars[At(s.key, t)] == after[At(s.key, t)]
    {
      PutMeaning(bars, key, rows, At(s.key, t));
      Beyond(s, key, rows, t);
    }
    RangeUntouched(after, bars, s.key, s.start, s.end);
  }

  lemma UpsertKeeps(db: Db, key: Key, frame: seq<Record>)
    requires Truthful(db)
    ensures Truthful(Upsert(db, key, frame).0)
  {
    if GoodKey(key) && Canonical(frame).Ok? {
      var rows := Canonical(frame).value;
      CanonicalMeaning(frame);
      var after := Upsert(db, key, frame).0;
      forall s | s in after.coverage
        ensures RangeRows(after.bars, s.key, s.start, s.end) == RangeRows(db.bars, s.key, s.start, s.end)
      {
        SpanUntouched(db.bars, key, rows, s);
      }
      forall a | a in after.bars ensures after.bars[a].time == a.time {
        PutMeaning(db.bars, key, rows, a);
      }
    }
  }

  lemma Beyond(s: Span, key: Key, rows: seq<Row>, t: int)
    requires rows != [] && Ascending(rows) && s.start <= t <= s.end
    requires !Meets(s, key, rows[0].time, rows[|rows| - 1].time)
    ensures !(s.key == key && exists r :: r in rows && r.time == t)
  {
  }

  lemma MarkKeeps(db: Db, key: Key, start: int, end: int, frame: seq<Record>)
    requires Truthful(db)
    ensures Truthful(MarkCompleted(db, key, start, end, frame).0)
  {}

  // ---- Storing and certifying a range ----

  lemma {:induction false} RangeMembers(bars: map<At, Row>, key: Key, start: int, end: int, r: Row)
    requires forall a | a in bars :: bars[a].time == a.time
    ensures r in RangeRows(bars, key, start, end)
            <==> start <= r.time <= end && At(key, r.time) in bars && bars[At(key, r.time)] == r
    decreases end - start
  {
    if start <= end {
      RangeMembers(bars, key, start + 1, end, r);
    }
  }

  lemma {:induction false} RangeAscends(bars: map<At, Row>, key: Key, start: int, end: int)
    requires forall a | a in bars :: bars[a].time == a.time
    ensures Ascending(RangeRows(bars, key, start, end))
    decreases end - start
  {
    if start <= end {
      RangeAscends(bars, key, start + 1, end);
      var more := RangeRows(bars, key, start + 1, end);
      forall j | 0 <= j < |more| ensures start < more[j].time {
        RangeMembers(bars, key, start + 1, end, more[j]);
      }
    }
  }

  lemma FirstIsMember(b: seq<Row>)
    requires b != []
    ensures exists r :: r in b
  {
    assert b[0] in b;
  }

  lemma {:induction false} AscendingIsUnique(a: seq<Row>, b: seq<Row>)
    requires Ascending(a) && Ascending(b) && forall r :: r in a <==> r in b
    ensures a == b
  {
    if a == [] {
      if b != [] {
        FirstIsMember(b);
      }
    } else {
      assert a[0] in b && b != [];
      assert b[0] in a;
      Heads(a, b);
      assert a == [a[0]] + a[1..] && b == [b[0]] + b[1..];
      forall r ensures r in a[1..] <==> r in b[1..] {
        assert r in a <==> r == a[0] || r in a[1..];
        assert r in b <==> r == b[0] || r in b[1..];
      }
      AscendingIsUnique(a[1..], b[1..]);
    }
  }

  lemma Heads(a: seq<Row>, b: seq<Row>)
    requires a != [] && b != [] && Ascending(a) && Ascending(b) && a[0] in b && b[0] in a
    ensures a[0] == b[0] && a[0] !in a[1..] && b[0] !in b[1..]
  {
    var i :| 0 <= i < |a| && a[i] == b[0];
    var j :| 0 <= j < |b| && b[j] == a[0];
    assert a[0].time <= a[i].time && b[0].time <= b[j].time;
  }

  /** Certifying a range right after storing its source succeeds exactly when nothing else lay in that range before. */
  lemma CertifiedIff(db: Db, key: Key, start: int, end: int, frame: seq<Record>)
    requires Truthful(db) && GoodKey(key) && Canonical(frame).Ok? && start <= end
    requires forall r | r in Canonical(frame).value :: start <= r.time <= end
    ensures MarkCompleted(Upsert(db, key, frame).0, key, start, end, frame).1.Ok?
        <==> forall t | start <= t <= end && At(key, t) in db.bars :: exists r ::
          r in Canonical(frame).value && r.time == t
  {
    var rows := Canonical(frame).value;
    CanonicalMeaning(frame);
    UpsertKeeps(db, key, frame);
    var after := Upsert(db, key, frame).0;
    var found := RangeRows(after.bars, key, start, end);
    if found == rows {
      forall t | start <= t <= end && At(key, t) in db.bars ensures exists r :: r in rows && r.time == t {
        PutMeaning(db.bars, key, rows, At(key, t));
        RangeMembers(after.bars, key, start, end, after.bars[At(key, t)]);
      }
    }
    if forall t | start <= t <= end && At(key, t) in db.bars :: exists r :: r in rows && r.time == t {
      forall r ensures r in found <==> r in rows {
        OnlyThose(db, key, start, end, rows, r);
      }
      RangeAscends(after.bars, key, start, end);
      AscendingIsUnique(found, rows);
    }
  }

  lemma OnlyThose(db: Db, key: Key, start: int, end: int, rows: seq<Row>, r: Row)
    requires Truthful(db) && Ascending(rows) && forall x | x in rows :: start <= x.time <= end
    requires forall t | start <= t <= end && At(key, t) in db.bars :: exists x :: x in rows && x.time == t
    requires forall a | a in Put(db.bars, key, rows) :: Put(db.bars, key, rows)[a].time == a.time
    ensures r in RangeRows(Put(db.bars, key, rows), key, start, end) <==> r in rows
  {
    PutMeaning(db.bars, key, rows, At(key, r.time));
    RangeMembers(Put(db.bars, key, rows), key, start, end, r);
  }

  datatype Op = Store(key: Key, frame: seq<Record>) | Certify(key: Key, start: int, end: int, frame: seq<Record>)

  function Do(db: Db, op: Op): Db {
    match op
    case Store(key, frame) => Upsert(db, key, frame).0
    case Certify(key, start, end, frame) => MarkCompleted(db, key, start, end, frame).0
  }

  function Run(db: Db, ops: seq<Op>): Db {
    if ops == [] then db else Do(Run(db, ops[..|ops| - 1]), ops[|ops| - 1])
  }

  /** After any sequence of upserts and completions every certificate is still true. */
  lemma {:induction false} RunKeepsTruth(ops: seq<Op>)
    ensures Truthful(Run(EMPTY, ops))
  {
    if ops != [] {
      RunKeepsTruth(ops[..|ops| - 1]);
      var db, op := Run(EMPTY, ops[..|ops| - 1]), ops[|ops| - 1];
      match op
      case Store(key, frame) => UpsertKeeps(db, key, frame);
      case Certify(key, start, end, frame) => MarkKeeps(db, key, start, end, frame);
    }
  }

  /** The source rows a certificate was given for, found by following the run: the newest completion of the span, if
      nothing that meets it was stored since. */
  function Certified(ops: seq<Op>, s: Span): Option<seq<Row>> {
    if ops == [] then None
    else
      var most, op := ops[..|ops| - 1], ops[|ops| - 1];
      var db := Run(EMPTY, most);
      match op
      case Store(key, frame) =>
        if GoodKey(key) && Canonical(frame).Ok? && (CanonicalMeaning(frame);
             Meets(s, key, Canonical(frame).value[0].time, Canonical(frame).value[|Canonical(frame).value| - 1].time))
        then None else Certified(most, s)
      case Certify(key, start, end, frame) =>
        if s == Span(key, start, end) && MarkCompleted(db, key, start, end, frame).1.Ok? then
          Some(Canonical(frame).value)
        else Certified(most, s)
  }

  lemma {:induction false} CoverageIsCertified(ops: seq<Op>, s: Span)
    ensures s in Run(EMPTY, ops).coverage <==> Certified(ops, s).Some?
    ensures s in Run(EMPTY, ops).coverage ==> Run(EMPTY, ops).coverage[s].digest == Sha256(Certified(ops, s).value)
  {
    if ops != [] {
      CoverageIsCertified(ops[..|ops| - 1], s);
      var op := ops[|ops| - 1];
      if op.Store? && GoodKey(op.key) && Canonical(op.frame).Ok? {
        CanonicalMeaning(op.frame);
      }
    }
  }

  /** Reading a covered range within the limit gives back the source rows it was certified for. */
  lemma CoveredReadIsTheSource(ops: seq<Op>, s: Span, limit: int)
    requires s in Run(EMPTY, ops).coverage && 1 <= limit <= 100000
    ensures Certified(ops, s).Some?
    ensures ReadRange(Run(EMPTY, ops), s.key, s.start, s.end, limit)
         == if |Certified(ops, s).value| <= limit then Ok(Certified(ops, s).value) else Err(OverLimit)
  {
    RunKeepsTruth(ops);
    CoverageIsCertified(ops, s);
  }

  // ---- The store ----

  class OhlcArchive {
    var bars: map<At, Row>
    var coverage: map<Span, Certificate>

    constructor ()
      ensures State() == EMPTY
    {
      bars, coverage := map[], map[];
    }

    function State(): Db
      reads this
    {
      Db(bars, coverage)
    }

    method CanonicalRows(frame: seq<Record>) returns (r: Result<seq<Row>, ArchiveError>)
      ensures r == Canonical(frame)
    {
      if frame == [] {
        return Err(EmptyFrame);
      }
      var rows := [];
      for i := 0 to |frame|
        invariant ToRows(frame[..i]) == Ok(rows)
      {
        assert frame[..i + 1][..i] == frame[..i];
        var row := ToRow(frame[i]);
        if row.Err? {
          Prefix(frame, i + 1);
          return Err(row.error);
        }
        rows := rows + [row.value];
      }
      assert frame[..|frame|] == frame;
      if !Distinct(rows) {
        return Err(DuplicateTimes);
      }
      return Ok(SortRows(rows));
    }

    method UpsertBars(key: Key, frame: seq<Record>) returns (r: Result<nat, ArchiveError>)
      modifies this
      ensures (State(), r) == Upsert(old(State()), key, frame)
    {
      if !GoodKey(key) {
        return Err(BadIdentity);
      }
      var canonical := CanonicalRows(frame);
      if canonical.Err? {
        return Err(canonical.error);
      }
      var rows := canonical.value;
      CanonicalMeaning(frame);
      coverage := map s | s in coverage && !Meets(s, key, rows[0].time, rows[|rows| - 1].time) :: coverage[s];
      InsertRows(key, rows);
      return Ok(|rows|);
    }

    method InsertRows(key: Key, rows: seq<Row>)
      modifies this`bars
      ensures bars == Put(old(bars), key, rows)
    {
      for i := 0 to |rows|
        invariant bars == Put(old(bars), key, rows[..i])
      {
        assert rows[..i + 1][..i] == rows[..i];
        bars := bars[At(key, rows[i].time) := rows[i]];
      }
      assert rows[..|rows|] == rows;
    }

    method Complete(key: Key, start: int, end: int, frame: seq<Record>) returns (r: Result<Certificate, ArchiveError>)
      modifies this
      ensures (State(), r) == MarkCompleted(old(State()), key, start, end, frame)
    {
      if !GoodKey(key) {
        return Err(BadIdentity);
      }
      var canonical := CanonicalRows(frame);
      if canonical.Err? {
        return Err(canonical.error);
      }
      var source := canonical.value;
      if start > end || exists x | x in source :: x.time < start || x.time > end {
        return Err(OutsideRange);
      }
      if RangeRows(bars, key, start, end) != source {
        return Err(ContentDiffers);
      }
      var certificate := Certificate(|source|, Sha256(source));
      coverage := coverage[Span(key, start, end) := certificate];
      return Ok(certificate);
    }
  }

  lemma {:induction false} Prefix(frame: seq<Record>, n: nat)
    requires n <= |frame| && ToRows(frame[..n]).Err?
    ensures ToRows(frame) == ToRows(frame[..n])
    decreases |frame|
  {
    if n == |frame| {
      assert frame[..n] == frame;
    } else {
      assert frame[..|frame| - 1][..n] == frame[..n];
      Prefix(frame[..|frame| - 1], n);
    }
  }
}
