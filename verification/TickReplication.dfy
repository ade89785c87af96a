/** A consumer that has drained its stream agrees with the publisher. */
module TickReplication {
  import opened TickEvents
  import opened TickConsumer
  import opened TickPublisher

  ghost predicate KeyedBySymbol(w: Wire, t: Ticks) {
    forall k | k in t :: Acceptable(w, t[k]) && t[k]["symbol"].text == k
  }

  lemma {:induction false} LatestIsKeyed(w: Wire, events: seq<Event>)
    requires AllAcceptable(w, events)
    ensures KeyedBySymbol(w, Latest(events))
    ensures forall k | k in Latest(events) :: Latest(events)[k] in events
  {
    if events != [] {
      var e := events[|events| - 1];
      LatestIsKeyed(w, events[..|events| - 1]);
      assert Acceptable(w, e);
    }
  }

  function Restricted(t: Ticks, symbols: seq<string>): Ticks { map k | k in t && k in symbols :: t[k] }

  lemma RestrictedHead(t: Ticks, k: string, symbols: seq<string>)
    requires k in t
    ensures Restricted(t, [k] + symbols) == map[k := t[k]] + Restricted(t, symbols)
  {}

  lemma {:induction false} LatestOfDistinct(w: Wire, t: Ticks, symbols: seq<string>)
    requires KeyedBySymbol(w, t) && forall k | k in symbols :: k in t
    ensures AllAcceptable(w, SnapshotEvents(t, symbols))
    ensures Latest(SnapshotEvents(t, symbols)) == Restricted(t, symbols)
  {
    if symbols == [] {
      assert Restricted(t, symbols) == map[];
    } else {
      var k, others := symbols[0], symbols[1..];
      assert symbols == [k] + others;
      LatestOfDistinct(w, t, others);
      assert Acceptable(w, t[k]) && t[k]["symbol"].text == k;
      var events := SnapshotEvents(t, symbols);
      assert events == [t[k]] + SnapshotEvents(t, others);
      assert events[1..] == SnapshotEvents(t, others);
      LatestFromHead(events, w);
      RestrictedHead(t, k, others);
    }
  }

  lemma SnapshotIsLatest(w: Wire, t: Ticks)
    requires KeyedBySymbol(w, t)
    ensures AllAcceptable(w, Snapshot(t)) && Latest(Snapshot(t)) == t
  {
    LatestOfDistinct(w, t, Sorted(t.Keys));
    assert Restricted(t, Sorted(t.Keys)) == t;
  }

  lemma SentParts(w: Wire, early: seq<Event>, late: seq<Event>)
    requires AllAcceptable(w, early + late)
    ensures var sent := Snapshot(Latest(early)) + late;
            AllAcceptable(w, sent) && Latest(sent) == Latest(early + late)
  {
    assert AllAcceptable(w, early) && AllAcceptable(w, late) by {
      assert forall e | e in early || e in late :: e in early + late;
    }
    LatestIsKeyed(w, early);
    SnapshotIsLatest(w, Latest(early));
    LatestConcat(Snapshot(Latest(early)), late);
    LatestConcat(early, late);
  }

  lemma SplitHistory(w: Wire, history: seq<Event>, n: nat) returns (sent: seq<Event>)
    requires n <= |history| && AllAcceptable(w, history)
    ensures Payloads(w, sent) == Stream(w, history, n)
    ensures AllAcceptable(w, sent) && Latest(sent) == Latest(history)
  {
    var early, late := history[..n], history[n..];
    assert history == early + late;
    SentParts(w, early, late);
    sent := Snapshot(Latest(early)) + late;
  }

  /** Whenever it joined and however the bytes were cut, a consumer that has read all it was sent holds the publisher's
      newest event of every symbol, and nothing else of what it holds has changed. */
  lemma DrainedConsumerAgrees(w: Wire, history: seq<Event>, n: nat, ticks: Ticks, chunks: seq<Chunk>)
    requires Lawful(w) && n <= |history| && AllAcceptable(w, history)
    requires Received(chunks) == Flatten(Stream(w, history, n))
    ensures Taken(w, ticks, Lines(Received(chunks)).lines) == ticks + Latest(history)
  {
    var sent := SplitHistory(w, history, n);
    DrainedStream(w, sent, ticks);
  }

  lemma DrainedStream(w: Wire, events: seq<Event>, ticks: Ticks)
    requires Lawful(w) && AllAcceptable(w, events)
    ensures Taken(w, ticks, Lines(Flatten(Payloads(w, events))).lines) == ticks + Latest(events)
  {
    StreamRoundTrip(w, events);
    ApplyAllIsLatest(w, ticks, events);
  }

  // ---- Before the stream is drained ----

  lemma {:induction false} DecodedPrefix(w: Wire, lines: seq<Bytes>, events: seq<Event>, m: nat)
    requires Lawful(w) && m <= |lines| && |lines| == |events| && forall i | 0 <= i < |lines| ::
               lines[i] == w.encode(events[i])
    ensures Decoded(w, lines[..m]) == events[..m]
  {
    if m > 0 {
      DecodedPrefix(w, lines[1..], events[1..], m - 1);
      assert lines[..m][1..] == lines[1..][..m - 1];
      assert events[..m] == [events[0]] + events[1..][..m - 1];
    }
  }

  lemma {:induction false} LinesOfPayloads(w: Wire, events: seq<Event>)
    requires Lawful(w)
    ensures var lines := Lines(Flatten(Payloads(w, events))).lines;
            |lines| == |events| && forall i | 0 <= i < |lines| :: lines[i] == w.encode(events[i])
  {
    if events != [] {
      LinesOfPayloads(w, events[1..]);
      var code := w.encode(events[0]);
      var more := Flatten(Payloads(w, events[1..]));
      assert Payloads(w, events)[1..] == Payloads(w, events[1..]);
      assert Flatten(Payloads(w, events)) == code + [NEWLINE] + more;
      LineThen(code, more);
    }
  }

  /** After any part of the bytes, even one that ends inside a line, the map is the one after some first part of the
      events sent. */
  lemma PartialStreamIsAPrefix(w: Wire, events: seq<Event>, ticks: Ticks, part: Bytes, rest: Bytes)
    requires Lawful(w) && AllAcceptable(w, events) && part + rest == Flatten(Payloads(w, events))
    ensures exists m :: 0 <= m <= |events| && Taken(w, ticks, Lines(part).lines) == ticks + Latest(events[..m])
  {
    var all := Lines(part + rest).lines;
    LinesOfPayloads(w, events);
    LinesAppend(part, rest);
    var m := |Lines(part).lines|;
    assert Lines(part).lines == all[..m];
    DecodedPrefix(w, all, events, m);
    assert AllAcceptable(w, events[..m]);
    ApplyAllIsLatest(w, ticks, events[..m]);
    assert 0 <= m <= |events|;
  }
}
