/** The consuming side: bytes arrive in chunks of any size, lines are taken over as they complete. */
module TickConsumer {
  import opened Wrappers
  import opened TickEvents

  /** One read of the socket: nothing within the timeout, or bytes; no bytes at all mean the stream has ended. */
  type Chunk = Option<Bytes>

  /** The bytes read before the stream ends. */
  function Received(chunks: seq<Chunk>): Bytes {
    if chunks == [] || chunks[0] == Some([]) then []
    else (if chunks[0].Some? then chunks[0].value else []) + Received(chunks[1..])
  }

  /** The map a consumer holds after whole lines. */
  function Taken(w: Wire, ticks: Ticks, lines: seq<Bytes>): Ticks {
    ApplyAll(w, ticks, Decoded(w, lines))
  }

  lemma {:induction false} ApplyConcat(w: Wire, ticks: Ticks, a: seq<Event>, b: seq<Event>)
    ensures ApplyAll(w, ticks, a + b) == ApplyAll(w, ApplyAll(w, ticks, a), b)
    decreases |a|
  {
    if a == [] {
      assert a + b == b;
    } else {
      ApplyConcat(w, Apply(w, ticks, a[0]), a[1..], b);
      assert (a + b)[1..] == a[1..] + b;
    }
  }

  lemma {:induction false} DecodedConcat(w: Wire, a: seq<Bytes>, b: seq<Bytes>)
    ensures Decoded(w, a + b) == Decoded(w, a) + Decoded(w, b)
  {
    if a == [] {
      assert a + b == b;
    } else {
      DecodedConcat(w, a[1..], b);
      assert (a + b)[1..] == a[1..] + b;
    }
  }

  lemma TakenConcat(w: Wire, ticks: Ticks, a: seq<Bytes>, b: seq<Bytes>)
    ensures Taken(w, ticks, a + b) == Taken(w, Taken(w, ticks, a), b)
  {
    DecodedConcat(w, a, b);
    ApplyConcat(w, ticks, Decoded(w, a), Decoded(w, b));
  }

  lemma TakenOne(w: Wire, ticks: Ticks, line: Bytes)
    ensures Taken(w, ticks, [line]) == match w.decode(line) case Some(e) => Apply(w, ticks, e) case None => ticks
  {
    var d := Decoded(w, [line]);
    assert Decoded(w, [line][1..]) == [];
    if w.decode(line).Some? {
      assert d == [w.decode(line).value];
      assert ApplyAll(w, ticks, d) == ApplyAll(w, Apply(w, ticks, d[0]), d[1..]);
    }
  }

  class TickConsumer {
    const wire: Wire
    var ticks: Ticks

    constructor (wire: Wire)
      ensures this.wire == wire && ticks == map[]
    {
      this.wire, ticks := wire, map[];
    }

    method AcceptLine(line: Bytes)
      modifies this
      ensures ticks == Taken(wire, old(ticks), [line])
    {
      TakenOne(wire, ticks, line);
      var decoded := wire.decode(line);
      if decoded.None? {
        return;
      }
      var event := decoded.value;
      if !(REQUIRED <= event.Keys) || !IsVersion(event["version"]) || event["type"] != Text("tick") {
        return;
      }
      if !event["symbol"].Text? || event["symbol"].text == "" {
        return;
      }
      if !event["received_at"].Text? {
        return;
      }
      if event["source_time"] != Null && !event["source_time"].Text? {
        return;
      }
      if exists f | f in PRICES :: !event[f].Number? {
        return;
      }
      if wire.stamp(event["received_at"].text) != Aware {
        return;
      }
      if event["source_time"] != Null && wire.stamp(event["source_time"].text) != Aware {
        return;
      }
      ticks := ticks[event["symbol"].text := event];
    }

    /** Takes over the whole lines at the front of the buffer and leaves the rest. */
    method TakeLines(bytes: Bytes) returns (buffer: Bytes)
      modifies this
      ensures ticks == Taken(wire, old(ticks), Lines(bytes).lines) && buffer == Lines(bytes).rest
    {
      buffer := bytes;
      while NEWLINE in buffer
        invariant Taken(wire, old(ticks), Lines(bytes).lines) == Taken(wire, ticks, Lines(buffer).lines)
        invariant Lines(bytes).rest == Lines(buffer).rest
        decreases |buffer|
      {
        var i := IndexOf(buffer);
        assert buffer[..i] + buffer[i..] == buffer;
        var line := buffer[..i];
        LineThen(line, buffer[i + 1..]);
        assert buffer == line + [NEWLINE] + buffer[i + 1..];
        TakenConcat(wire, ticks, [line], Lines(buffer[i + 1..]).lines);
        buffer := buffer[i + 1..];
        AcceptLine(line);
      }
      NoLine(buffer);
    }

    /** However the bytes are cut into chunks, the map ends as if the whole lines among them had arrived one by one. */
    method ReadStream(chunks: seq<Chunk>)
      modifies this
      ensures ticks == Taken(wire, old(ticks), Lines(Received(chunks)).lines)
    {
      var buffer: Bytes := [];
      var next := 0;
      assert chunks[0..] == chunks && buffer + Received(chunks) == Received(chunks);
      while next < |chunks|
        invariant next <= |chunks|
        invariant Taken(wire, old(ticks), Lines(Received(chunks)).lines)
               == Taken(wire, ticks, Lines(buffer + Received(chunks[next..])).lines)
        invariant Lines(buffer) == Split([], buffer)
      {
        var chunk := chunks[next];
        ghost var later := Received(chunks[next + 1..]);
        assert chunks[next..][1..] == chunks[next + 1..];
        next := next + 1;
        if chunk == Some([]) {
          assert buffer + [] == buffer;
          return;
        }
        if chunk.Some? {
          ghost var joined := buffer + chunk.value;
          assert buffer + (chunk.value + later) == joined + later;
          LinesAppend(joined, later);
          TakenConcat(wire, ticks, Lines(joined).lines, Lines(Lines(joined).rest + later).lines);
          buffer := TakeLines(buffer + chunk.value);
          RestHasNoLine(joined);
          NoLine(buffer);
        } else {
          assert buffer + ([] + later) == buffer + later;
        }
      }
      assert chunks[next..] == [] && buffer + [] == buffer;
    }
  }
}
