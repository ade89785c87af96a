/** Rows as the broker returns them, and the checks they pass before they become closed bars. */
module Validation {
  import opened Wrappers
  import opened Bars

  /** A broker row; None is a cell that is no finite number. */
  datatype Raw = Raw(time: Option<int>, open: Option<real>, high: Option<real>, low: Option<real>,
                     close: Option<real>, volume: Option<real>)

  datatype BarError = InvalidColumns | InvalidTimestamps | OffGrid | InvalidValues | InvalidPrices

  predicate Finite(r: Raw) {
    r.open.Some? && r.high.Some? && r.low.Some? && r.close.Some? && r.volume.Some?
  }

  predicate Complete(r: Raw) { r.time.Some? && Finite(r) }

  function ToBar(r: Raw, source: string): Bar
    requires Complete(r)
  {
    Bar(r.time.value, r.open.value, r.high.value, r.low.value, r.close.value, r.volume.value, source)
  }

  function ToBars(rows: seq<Raw>, source: string): (s: seq<Bar>)
    requires forall r | r in rows :: Complete(r)
    ensures |s| == |rows| && forall i | 0 <= i < |s| :: s[i] == ToBar(rows[i], source)
  {
    if rows == [] then [] else [ToBar(rows[0], source)] + ToBars(rows[1..], source)
  }

  predicate OnGrid(t: int, tf: Timeframe) { tf == D1 || Remainder(t, tf) == 0 }

  predicate PricesAgree(open: real, high: real, low: real, close: real) {
    high >= open && high >= close && high >= low && low <= open && low <= close
  }

  predicate SoundBar(b: Bar, tf: Timeframe) {
    OnGrid(b.time, tf) && b.volume >= 0.0 && PricesAgree(b.open, b.high, b.low, b.close)
  }

  predicate PricesComplete(r: Raw) {
    Finite(r) && PricesAgree(r.open.value, r.high.value, r.low.value, r.close.value)
  }

  function Fault(rows: seq<Raw>, complete: bool, tf: Timeframe): Option<BarError> {
    if !complete then Some(InvalidColumns)
    else if exists r | r in rows :: r.time.None? then Some(InvalidTimestamps)
    else if exists i, j | 0 <= i < j < |rows| :: rows[i].time == rows[j].time then Some(InvalidTimestamps)
    else if exists r | r in rows :: r.time.Some? && !OnGrid(r.time.value, tf) then Some(OffGrid)
    else if exists r | r in rows :: !Finite(r) || r.volume.value < 0.0 then Some(InvalidValues)
    else if exists r | r in rows :: !PricesComplete(r) then Some(InvalidPrices)
    else None
  }

  predicate AllComplete(rows: seq<Raw>) { forall r | r in rows :: Complete(r) }

  function ValidateBars(rows: seq<Raw>, complete: bool, source: string, tf: Timeframe,
                        now: int): Result<seq<Bar>, BarError> {
    if rows == [] then Ok([])
    else
      match Fault(rows, complete, tf)
      case Some(e) => Err(e)
      case None =>
        assert forall r | r in rows :: Finite(r);
        Ok(SortByTime(KeepClosed(ToBars(rows, source), tf, now)))
  }

  lemma ToBarsMembers(rows: seq<Raw>, source: string)
    requires AllComplete(rows)
    ensures forall r | r in rows :: ToBar(r, source) in ToBars(rows, source)
    ensures forall b | b in ToBars(rows, source) :: exists r :: r in rows && Complete(r) && ToBar(r, source) == b
  {
    var bars := ToBars(rows, source);
    forall r | r in rows ensures ToBar(r, source) in bars {
      var i :| 0 <= i < |rows| && rows[i] == r;
      assert bars[i] in bars;
    }
    forall b | b in bars ensures exists r :: r in rows && Complete(r) && ToBar(r, source) == b {
      var i :| 0 <= i < |bars| && bars[i] == b;
      assert rows[i] in rows;
    }
  }

  lemma FaultFree(rows: seq<Raw>, complete: bool, source: string, tf: Timeframe)
    requires Fault(rows, complete, tf).None?
    ensures AllComplete(rows) && DistinctTimes(ToBars(rows, source))
    ensures forall b | b in ToBars(rows, source) :: SoundBar(b, tf) && b.source == source
  {
    assert forall r | r in rows ::
             r.time.Some? && OnGrid(r.time.value, tf) && PricesComplete(r) && r.volume.value >= 0.0;
    assert AllComplete(rows);
    var bars := ToBars(rows, source);
    forall i, j | 0 <= i < j < |bars| ensures bars[i].time != bars[j].time {
      assert rows[i].time != rows[j].time;
    }
    ToBarsMembers(rows, source);
  }

  lemma {:induction false} KeepClosedShorter(s: seq<Bar>, tf: Timeframe, now: int)
    ensures |KeepClosed(s, tf, now)| <= |s|
    ensures |KeepClosed(s, tf, now)| == |s| ==> KeepClosed(s, tf, now) == s
  {
    if s != [] {
      KeepClosedShorter(s[..|s| - 1], tf, now);
    }
  }

  lemma DistinctAppend(s: seq<Bar>, b: Bar)
    requires DistinctTimes(s) && !HasTime(s, b.time)
    ensures DistinctTimes(s + [b])
  {
    forall i, j | 0 <= i < j < |s + [b]| ensures (s + [b])[i].time != (s + [b])[j].time {
      assert (s + [b])[i] in s;
    }
  }

  lemma {:induction false} KeepClosedDistinct(s: seq<Bar>, tf: Timeframe, now: int)
    requires DistinctTimes(s)
    ensures DistinctTimes(KeepClosed(s, tf, now))
    ensures |KeepClosed(s, tf, now)| <= |s|
    ensures |KeepClosed(s, tf, now)| == |s| ==> KeepClosed(s, tf, now) == s
  {
    KeepClosedShorter(s, tf, now);
    if s != [] {
      var most, last := s[..|s| - 1], s[|s| - 1];
      KeepClosedDistinct(most, tf, now);
      KeepClosedMembers(most, tf, now);
      assert !HasTime(KeepClosed(most, tf, now), last.time) by {
        assert forall b | b in most :: b.time != last.time;
      }
      DistinctAppend(KeepClosed(most, tf, now), last);
      assert KeepClosed(s, tf, now) == KeepClosed(most, tf, now) + [last]
             || KeepClosed(s, tf, now) == KeepClosed(most, tf, now);
    }
  }

  /** Accepted rows come out in strictly increasing time, closed, sound and carrying their source. */
  lemma ValidatedMeaning(rows: seq<Raw>, complete: bool, source: string, tf: Timeframe, now: int)
    requires ValidateBars(rows, complete, source, tf, now).Ok?
    ensures var s := ValidateBars(rows, complete, source, tf, now).value;
            Increasing(s) && AllClosed(s, tf, now) && |s| <= |rows|
    ensures forall b | b in ValidateBars(rows, complete, source, tf, now).value ::
              SoundBar(b, tf) && b.source == source && exists r :: r in rows && Complete(r) && ToBar(r, source) == b
  {
    if rows != [] {
      FaultFree(rows, complete, source, tf);
      var bars := ToBars(rows, source);
      ToBarsMembers(rows, source);
      KeepClosedDistinct(bars, tf, now);
      KeepClosedMembers(bars, tf, now);
      SortMeaning(KeepClosed(bars, tf, now));
      SortMembers(KeepClosed(bars, tf, now));
    }
  }

  /** A response none of whose rows is dropped as still forming comes out with every row in it. */
  lemma NothingDropped(rows: seq<Raw>, complete: bool, source: string, tf: Timeframe, now: int)
    requires ValidateBars(rows, complete, source, tf, now).Ok?
    requires |ValidateBars(rows, complete, source, tf, now).value| == |rows|
    ensures forall r | r in rows ::
              Complete(r) && ToBar(r, source) in ValidateBars(rows, complete, source, tf, now).value
  {
    if rows != [] {
      FaultFree(rows, complete, source, tf);
      var bars := ToBars(rows, source);
      ToBarsMembers(rows, source);
      KeepClosedDistinct(bars, tf, now);
      SortMembers(KeepClosed(bars, tf, now));
    }
  }
}
