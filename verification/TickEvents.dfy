/** Tick events, their encoding as lines, and what each side accepts. */
module TickEvents {
  import opened Wrappers

  newtype byte = x: int | 0 <= x < 256

  type Bytes = seq<byte>

  const NEWLINE: byte := 10

  /** A JSON value; Number carries its canonical decimal digits and exponent. */
  datatype Value = Null | Bool(flag: bool) | Number(digits: int, exponent: int) | NotFinite | Text(text: string)

  type Event = map<string, Value>

  datatype Stamp = Unparsable | Naive | Aware

  /** JSON and ISO dates as functions: None decodes what is no JSON object. */
  datatype Wire = Wire(encode: Event -> Bytes, decode: Bytes -> Option<Event>, stamp: string -> Stamp)

  ghost predicate Lawful(w: Wire) {
    forall e: Event :: NEWLINE !in w.encode(e) && w.decode(w.encode(e)) == Some(e)
  }

  const REQUIRED: set<string> := {"version", "type", "symbol", "bid", "ask", "last", "volume", "source_time",
                                  "received_at"}

  const PRICES: set<string> := {"bid", "ask", "last", "volume"}

  // A true flag compares equal to the number one.
  predicate IsVersion(v: Value) { v == Number(1, 0) || v == Bool(true) }

  datatype EncodeError = MissingFields | UnsupportedProtocol

  predicate Encodable(e: Event) {
    REQUIRED <= e.Keys && IsVersion(e["version"]) && e["type"] == Text("tick")
  }

  function Payload(w: Wire, e: Event): Bytes { w.encode(e) + [NEWLINE] }

  function EncodeEvent(w: Wire, e: Event): Result<Bytes, EncodeError> {
    if !(REQUIRED <= e.Keys) then Err(MissingFields)
    else if !IsVersion(e["version"]) || e["type"] != Text("tick") then Err(UnsupportedProtocol)
    else Ok(Payload(w, e))
  }

  predicate IsAware(w: Wire, v: Value) { v.Text? && w.stamp(v.text) == Aware }

  /** What a consumer takes over; anything else it drops without a word. */
  predicate Acceptable(w: Wire, e: Event) {
    && Encodable(e)
    && e["symbol"].Text? && e["symbol"].text != ""
    && (forall f | f in PRICES :: e[f].Number?)
    && IsAware(w, e["received_at"]) && (e["source_time"] == Null || IsAware(w, e["source_time"]))
  }

  type Ticks = map<string, Event>

  function Apply(w: Wire, ticks: Ticks, e: Event): Ticks {
    if Acceptable(w, e) then ticks[e["symbol"].text := e] else ticks
  }

  function ApplyAll(w: Wire, ticks: Ticks, events: seq<Event>): Ticks
    decreases |events|
  {
    if events == [] then ticks else ApplyAll(w, Apply(w, ticks, events[0]), events[1..])
  }

  predicate AllAcceptable(w: Wire, events: seq<Event>) { forall e | e in events :: Acceptable(w, e) }

  /** The newest event of each symbol. */
  function Latest(events: seq<Event>): Ticks {
    if events == [] then map[]
    else
      var e := events[|events| - 1];
      if "symbol" in e && e["symbol"].Text? then Latest(events[..|events| - 1])[e["symbol"].text := e]
      else Latest(events[..|events| - 1])
  }

  lemma {:induction false} LatestFromHead(events: seq<Event>, w: Wire)
    requires events != [] && AllAcceptable(w, events) && Acceptable(w, events[0])
    ensures Latest(events) == map[events[0]["symbol"].text := events[0]] + Latest(events[1..])
  {
    var last := |events| - 1;
    var first := events[0];
    if last == 0 {
      assert events[..0] == [] && events[1..] == [];
      assert Latest(events) == Latest([])[first["symbol"].text := first];
    } else {
      LatestFromHead(events[..last], w);
      assert Acceptable(w, events[last]);
      assert events[..last][1..] == events[1..][..last - 1];
    }
  }

  lemma Shift(ticks: Ticks, symbol: string, e: Event, rest: Ticks)
    ensures ticks[symbol := e] + rest == ticks + (map[symbol := e] + rest)
  {}

  /** Taking over acceptable events one by one leaves the newest of each symbol, over what was there. */
  lemma {:induction false} ApplyAllIsLatest(w: Wire, ticks: Ticks, events: seq<Event>)
    requires AllAcceptable(w, events)
    ensures ApplyAll(w, ticks, events) == ticks + Latest(events)
    decreases |events|
  {
    if events == [] {
      assert ticks + Latest(events) == ticks;
    } else {
      var e := events[0];
      assert Acceptable(w, e);
      ApplyAllIsLatest(w, Apply(w, ticks, e), events[1..]);
      LatestFromHead(events, w);
      Shift(ticks, e["symbol"].text, e, Latest(events[1..]));
    }
  }

  lemma {:induction false} LatestConcat(a: seq<Event>, b: seq<Event>)
    ensures Latest(a + b) == Latest(a) + Latest(b)
  {
    if b == [] {
      assert a + b == a;
    } else {
      var last := |b| - 1;
      LatestConcat(a, b[..last]);
      assert (a + b)[..|a + b| - 1] == a + b[..last];
      assert (a + b)[|a + b| - 1] == b[last];
    }
  }

  // ---- Lines ----

  function IndexOf(b: Bytes): (i: nat)
    ensures i <= |b| && (i < |b| ==> b[i] == NEWLINE) && NEWLINE !in b[..i]
  {
    if b == [] || b[0] == NEWLINE then 0
    else
      var i := IndexOf(b[1..]);
      assert b[..i + 1] == [b[0]] + b[1..][..i];
      i + 1
  }

  datatype Split = Split(lines: seq<Bytes>, rest: Bytes)

  function Feed(s: Split, c: byte): Split {
    if c == NEWLINE then Split(s.lines + [s.rest], []) else Split(s.lines, s.rest + [c])
  }

  function Lines(b: Bytes): Split {
    if b == [] then Split([], []) else Feed(Lines(b[..|b| - 1]), b[|b| - 1])
  }

  function Join(a: Split, b: Split): Split { Split(a.lines + b.lines, b.rest) }

  lemma FeedJoin(a: Split, b: Split, c: byte)
    ensures Feed(Join(a, b), c) == Join(a, Feed(b, c))
  {}

  lemma LinesFeed(b: Bytes, c: byte)
    ensures Lines(b + [c]) == Feed(Lines(b), c)
  {
    assert (b + [c])[..|b|] == b;
  }

  lemma {:induction false} RestHasNoLine(b: Bytes)
    ensures NEWLINE !in Lines(b).rest
  {
    if b != [] {
      RestHasNoLine(b[..|b| - 1]);
    }
  }

  lemma {:induction false} NoLine(b: Bytes)
    requires NEWLINE !in b
    ensures Lines(b) == Split([], b)
  {
    if b != [] {
      NoLine(b[..|b| - 1]);
      assert b == b[..|b| - 1] + [b[|b| - 1]];
    }
  }

  /** Splitting may be interrupted anywhere: what is left over is split together with what follows. */
  lemma {:induction false} LinesAppend(a: Bytes, b: Bytes)
    ensures Lines(a + b) == Join(Lines(a), Lines(Lines(a).rest + b))
  {
    if b == [] {
      RestHasNoLine(a);
      NoLine(Lines(a).rest);
      assert a + b == a && Lines(a).rest + b == Lines(a).rest;
    } else {
      var most, c := b[..|b| - 1], b[|b| - 1];
      LinesAppend(a, most);
      LinesFeed(a + most, c);
      LinesFeed(Lines(a).rest + most, c);
      FeedJoin(Lines(a), Lines(Lines(a).rest + most), c);
      assert a + b == a + most + [c] && Lines(a).rest + b == Lines(a).rest + most + [c];
    }
  }

  lemma LineThen(x: Bytes, y: Bytes)
    requires NEWLINE !in x
    ensures Lines(x + [NEWLINE] + y) == Split([x] + Lines(y).lines, Lines(y).rest)
  {
    NoLine(x);
    LinesFeed(x, NEWLINE);
    LinesAppend(x + [NEWLINE], y);
    assert [] + y == y;
  }

  function Flatten(parts: seq<Bytes>): Bytes {
    if parts == [] then [] else parts[0] + Flatten(parts[1..])
  }

  function Decoded(w: Wire, lines: seq<Bytes>): seq<Event> {
    if lines == [] then []
    else (match w.decode(lines[0]) case Some(e) => [e] case None => []) + Decoded(w, lines[1..])
  }

  function Payloads(w: Wire, events: seq<Event>): seq<Bytes> {
    if events == [] then [] else [Payload(w, events[0])] + Payloads(w, events[1..])
  }

  lemma {:induction false} PayloadsConcat(w: Wire, a: seq<Event>, b: seq<Event>)
    ensures Payloads(w, a + b) == Payloads(w, a) + Payloads(w, b)
  {
    if a == [] {
      assert a + b == b;
    } else {
      PayloadsConcat(w, a[1..], b);
      assert (a + b)[1..] == a[1..] + b;
    }
  }

  /** Events put on a stream as lines come off it again, one by one and complete. */
  lemma {:induction false} StreamRoundTrip(w: Wire, events: seq<Event>)
    requires Lawful(w)
    ensures Lines(Flatten(Payloads(w, events))).rest == []
    ensures Decoded(w, Lines(Flatten(Payloads(w, events))).lines) == events
  {
    if events != [] {
      StreamRoundTrip(w, events[1..]);
      var code := w.encode(events[0]);
      var more := Flatten(Payloads(w, events[1..]));
      var all := Flatten(Payloads(w, events));
      assert Payloads(w, events)[1..] == Payloads(w, events[1..]);
      assert all == code + [NEWLINE] + more;
      LineThen(code, more);
      assert Lines(all).lines[1..] == Lines(more).lines;
      assert [events[0]] + events[1..] == events;
    }
  }
}
