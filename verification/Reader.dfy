/** The reading side: a published file is served only if it passes every check. */
module Reader {
  import opened Wrappers
  import opened Bars
  import opened Validation
  import opened Text

  /** What is on disk for one symbol and timeframe: the rows, and the ready marker that names their source. */
  datatype Disk = Disk(csv: Option<seq<Bar>>, marker: Option<string>)

  datatype ReadError = NotFound | NotReady | SourceAmbiguous | ValuesInvalid | Unordered | Misaligned

  function Find(d: Disk, current: bool): Result<(seq<Bar>, string), ReadError> {
    if !current then Err(NotReady)
    else if d.csv.None? then Err(NotFound)
    else if d.marker.None? || Strip(d.marker.value) == "" then Err(NotReady)
    else Ok((d.csv.value, Strip(d.marker.value)))
  }

  function Validate(rows: seq<Bar>, published: string, tf: Timeframe, now: int): Result<seq<Bar>, ReadError> {
    var sources := set b | b in rows :: b.source;
    if (exists s | s in sources :: Strip(s) == "") || sources != {published} then Err(SourceAmbiguous)
    else if exists b | b in rows ::
      b.volume < 0.0 || !PricesAgree(b.open, b.high, b.low, b.close) then Err(ValuesInvalid)
    else if exists i, j | 0 <= i < j < |rows| :: rows[i].time == rows[j].time then Err(Unordered)
    else if exists i | 0 <= i < |rows| - 1 :: rows[i].time > rows[i + 1].time then Err(Unordered)
    else if exists b | b in rows :: Remainder(b.time, tf) != 0 then Err(Misaligned)
    else if exists i | 0 <= i < |rows| - 1 :: Remainder(rows[i + 1].time - rows[i].time, tf) != 0 then Err(Misaligned)
    else if exists b | b in rows :: b.time + Seconds(tf) > now then Err(Misaligned)
    else Ok(rows)
  }

  function Read(d: Disk, current: bool, tf: Timeframe, now: int): Result<seq<Bar>, ReadError> {
    match Find(d, current)
    case Err(e) => Err(e)
    case Ok((rows, published)) => Validate(rows, published, tf, now)
  }

  predicate Aligned(rows: seq<Bar>, tf: Timeframe) {
    forall b | b in rows :: Remainder(b.time, tf) == 0
  }

  lemma AlignedCadence(a: int, b: int, tf: Timeframe)
    requires Remainder(a, tf) == 0 && Remainder(b, tf) == 0
    ensures Remainder(b - a, tf) == 0
  {
    match tf
    case M5 => Difference300(a, b);
    case M15 => Difference900(a, b);
    case H1 => Difference3600(a, b);
    case D1 => Difference86400(a, b);
  }

  lemma Difference300(a: int, b: int)
    requires a % 300 == 0 && b % 300 == 0
    ensures (b - a) % 300 == 0
  {}

  lemma Difference900(a: int, b: int)
    requires a % 900 == 0 && b % 900 == 0
    ensures (b - a) % 900 == 0
  {}

  lemma Difference3600(a: int, b: int)
    requires a % 3600 == 0 && b % 3600 == 0
    ensures (b - a) % 3600 == 0
  {}

  lemma Difference86400(a: int, b: int)
    requires a % 86400 == 0 && b % 86400 == 0
    ensures (b - a) % 86400 == 0
  {}

  /** An accepted read is sound whatever the writer does meanwhile: one source, the one the marker named, in order,
      on the grid, closed. */
  lemma AcceptedIsSound(rows: seq<Bar>, published: string, tf: Timeframe, now: int)
    requires Validate(rows, published, tf, now).Ok?
    ensures rows != [] && Validate(rows, published, tf, now).value == rows
    ensures Increasing(rows) && AllClosed(rows, tf, now) && Aligned(rows, tf)
    ensures forall b | b in rows :: b.source == published && SoundBar(b, tf)
  {
    var sources := set b | b in rows :: b.source;
    assert published in sources;
    forall b | b in rows ensures b.source == published {
      assert b.source in sources;
    }
    StepwiseIncreasing(rows);
  }

  /** What is served has one source whose name needs no stripping, whatever spaces the marker was written with. */
  lemma ServedSourceIsStripped(d: Disk, current: bool, tf: Timeframe, now: int)
    requires Read(d, current, tf, now).Ok?
    ensures d.csv == Some(Read(d, current, tf, now).value) && d.marker.Some?
    ensures Strip(d.marker.value) != ""
    ensures forall b | b in d.csv.value :: b.source == Strip(d.marker.value) && Strip(b.source) == b.source
  {
    AcceptedIsSound(d.csv.value, Strip(d.marker.value), tf, now);
    StripTwice(d.marker.value);
  }

  lemma {:induction false} StepwiseIncreasing(rows: seq<Bar>)
    requires forall i, j | 0 <= i < j < |rows| :: rows[i].time != rows[j].time
    requires forall i | 0 <= i < |rows| - 1 :: rows[i].time <= rows[i + 1].time
    ensures Increasing(rows)
  {
    if |rows| > 1 {
      StepwiseIncreasing(rows[..|rows| - 1]);
      assert rows[|rows| - 2].time < rows[|rows| - 1].time;
    }
  }

  /** Sound rows of one source are accepted exactly when they lie on the grid and the source has a name that no
      stripping changes. */
  lemma AcceptedIff(rows: seq<Bar>, source: string, tf: Timeframe, now: int)
    requires rows != [] && Increasing(rows) && AllClosed(rows, tf, now)
    requires forall b | b in rows :: b.source == source && SoundBar(b, tf)
    ensures Read(Disk(Some(rows), Some(source)), true, tf, now) == Ok(rows)
        <==> Aligned(rows, tf) && Strip(source) != "" && Strip(source) == source
    ensures tf != D1 ==> Aligned(rows, tf)
  {
    OneSource(rows, source);
    if Aligned(rows, tf) {
      CadenceFollows(rows, tf);
    }
    if Strip(source) == source && Strip(source) != "" {
      SoundRowsPass(rows, source, tf, now);
    }
  }

  lemma OneSource(rows: seq<Bar>, source: string)
    requires rows != [] && forall b | b in rows :: b.source == source
    ensures (set b | b in rows :: b.source) == {source}
  {
    assert rows[0] in rows;
  }

  lemma CadenceFollows(rows: seq<Bar>, tf: Timeframe)
    requires Aligned(rows, tf)
    ensures forall i | 0 <= i < |rows| - 1 :: Remainder(rows[i + 1].time - rows[i].time, tf) == 0
  {
    forall i | 0 <= i < |rows| - 1 ensures Remainder(rows[i + 1].time - rows[i].time, tf) == 0 {
      assert rows[i] in rows && rows[i + 1] in rows;
      AlignedCadence(rows[i].time, rows[i + 1].time, tf);
    }
  }

  lemma SoundRowsPass(rows: seq<Bar>, source: string, tf: Timeframe, now: int)
    requires rows != [] && Increasing(rows) && AllClosed(rows, tf, now)
    requires forall b | b in rows :: b.source == source && SoundBar(b, tf)
    requires Strip(source) != ""
    ensures Validate(rows, source, tf, now) == if Aligned(rows, tf) then Ok(rows) else Err(Misaligned)
  {
    var sources := set b | b in rows :: b.source;
    OneSource(rows, source);
    if Aligned(rows, tf) {
      CadenceFollows(rows, tf);
    }
  }
}
