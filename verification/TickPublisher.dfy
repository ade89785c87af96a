/** The publishing side: a snapshot on joining, then every event, over bounded queues. */
module TickPublisher {
  import opened Wrappers
  import opened TickEvents

  // ---- The order of a snapshot ----

  predicate Leq(a: string, b: string) {
    a == "" || (b != "" && (a[0] < b[0] || (a[0] == b[0] && Leq(a[1..], b[1..]))))
  }

  lemma {:induction false} LeqTotal(a: string, b: string)
    ensures Leq(a, b) || Leq(b, a)
    ensures Leq(a, b) && Leq(b, a) ==> a == b
  {
    if a != "" && b != "" && a[0] == b[0] {
      LeqTotal(a[1..], b[1..]);
      assert a == [a[0]] + a[1..] && b == [b[0]] + b[1..];
    }
  }

  lemma {:induction false} LeqTransitive(a: string, b: string, c: string)
    requires Leq(a, b) && Leq(b, c)
    ensures Leq(a, c)
  {
    if a != "" && a[0] == b[0] == c[0] {
      LeqTransitive(a[1..], b[1..], c[1..]);
    }
  }

  predicate Least(k: string, keys: set<string>) { k in keys && forall j | j in keys :: Leq(k, j) }

  lemma {:induction false} LeastExists(keys: set<string>)
    requires keys != {}
    ensures exists k :: Least(k, keys)
  {
    var x :| x in keys;
    if keys == {x} {
      LeqTotal(x, x);
      assert Least(x, keys);
    } else {
      var rest := keys - {x};
      assert rest != {} by { assert keys == rest + {x}; }
      LeastExists(rest);
      var k :| Least(k, rest);
      LeqTotal(x, k);
      LeqTotal(x, x);
      if Leq(x, k) {
        forall j | j in rest ensures Leq(x, j) { LeqTransitive(x, k, j); }
        assert Least(x, keys);
      } else {
        assert Least(k, keys);
      }
    }
  }

  lemma LeastIsUnique(a: string, b: string, keys: set<string>)
    requires Least(a, keys) && Least(b, keys)
    ensures a == b
  {
    LeqTotal(a, b);
  }

  function Sorted(keys: set<string>): (s: seq<string>)
    ensures forall k :: k in s <==> k in keys
    ensures |s| == |keys|
  {
    if keys == {} then []
    else
      LeastExists(keys);
      assert forall a, b | Least(a, keys) && Least(b, keys) :: a == b by {
        forall a, b | Least(a, keys) && Least(b, keys) ensures a == b { LeastIsUnique(a, b, keys); }
      }
      var k :| Least(k, keys);
      [k] + Sorted(keys - {k})
  }

  function SnapshotEvents(latest: Ticks, symbols: seq<string>): seq<Event>
    requires forall k | k in symbols :: k in latest
  {
    if symbols == [] then [] else [latest[symbols[0]]] + SnapshotEvents(latest, symbols[1..])
  }

  function Snapshot(latest: Ticks): seq<Event> { SnapshotEvents(latest, Sorted(latest.Keys)) }

  // ---- Channels ----

  class ClientChannel {
    const size: int
    var pending: seq<Bytes>
    var sent: seq<Bytes>
    var closed: bool
    ghost var joined: nat // how many events had been published when the client was registered

    constructor (size: int, ghost joined: nat)
      ensures this.size == size && pending == [] && sent == [] && !closed && this.joined == joined
    {
      this.size, pending, sent, closed, this.joined := size, [], [], false, joined;
    }

    predicate Full()
      reads this
    {
      size > 0 && |pending| >= size
    }

    method Enqueue(payload: Bytes) returns (ok: bool)
      modifies this`pending
      ensures ok == !(closed || old(Full()))
      ensures pending == if ok then old(pending) + [payload] else old(pending)
    {
      if closed || Full() {
        return false;
      }
      pending := pending + [payload];
      return true;
    }

    method Close()
      modifies this`closed
      ensures closed
    {
      closed := true;
    }

    /** The writer thread takes one payload off the queue and sends it. */
    method WriteNext()
      modifies this`pending, this`sent
      ensures sent + pending == old(sent + pending)
      ensures old(pending) != [] && !closed ==> sent == old(sent) + [old(pending)[0]]
    {
      if pending != [] && !closed {
        assert pending == [pending[0]] + pending[1..];
        sent, pending := sent + [pending[0]], pending[1..];
      }
    }
  }

  /** All a client joining after n of the events has been sent or has waiting for it. */
  ghost function Stream(w: Wire, history: seq<Event>, n: nat): seq<Bytes>
    requires n <= |history|
  {
    Payloads(w, Snapshot(Latest(history[..n])) + history[n..])
  }

  ghost predicate InStep(c: ClientChannel, w: Wire, history: seq<Event>, size: int)
    reads c
  {
    !c.closed && c.size == size && c.joined <= |history| && c.sent + c.pending == Stream(w, history, c.joined)
  }

  lemma StreamBegins(w: Wire, history: seq<Event>)
    ensures Stream(w, history, |history|) == Payloads(w, Snapshot(Latest(history)))
  {
    assert history[..|history|] == history && history[|history|..] == [];
    assert Snapshot(Latest(history)) + [] == Snapshot(Latest(history));
  }

  lemma StreamGrows(w: Wire, history: seq<Event>, e: Event, n: nat)
    requires n <= |history|
    ensures Stream(w, history + [e], n) == Stream(w, history, n) + [Payload(w, e)]
  {
    var start := Snapshot(Latest(history[..n]));
    assert (history + [e])[..n] == history[..n];
    assert start + (history + [e])[n..] == (start + history[n..]) + [e];
    PayloadsConcat(w, start + history[n..], [e]);
    assert [e][1..] == [];
    assert Payloads(w, [e]) == [Payload(w, e)];
  }

  class TickPublisher {
    const wire: Wire
    const queueSize: int
    var latest: Ticks
    var clients: set<ClientChannel>
    ghost var history: seq<Event>

    constructor (wire: Wire, queueSize: int)
      ensures Valid() && this.wire == wire && this.queueSize == queueSize && history == [] && clients == {}
    {
      this.wire, this.queueSize, latest, clients, history := wire, queueSize, map[], {}, [];
    }

    ghost predicate Valid()
      reads this, clients
    {
      latest == Latest(history) && forall c | c in clients :: InStep(c, wire, history, queueSize)
    }

    // Offers a payload to every client; those whose queues are full do not take it.
    method Broadcast(payload: Bytes) returns (failed: set<ClientChannel>)
      requires forall c | c in clients :: !c.closed
      modifies set c | c in clients :: c`pending
      ensures failed == set c | c in clients && old(c.Full())
      ensures forall c | c in clients :: c.pending == if c in failed then old(c.pending) else old(c.pending) + [payload]
    {
      failed := {};
      var rest := clients;
      while rest != {}
        invariant rest <= clients && failed <= clients - rest
        invariant forall c | c in clients - rest :: c in failed <==> old(c.Full())
        invariant forall c | c in clients ::
                    c.pending == if c in rest || c in failed then old(c.pending) else old(c.pending) + [payload]
        decreases |rest|
      {
        var channel :| channel in rest;
        rest := rest - {channel};
        var ok := channel.Enqueue(payload);
        if !ok {
          failed := failed + {channel};
        }
      }
    }

    method CloseAll(failed: set<ClientChannel>)
      modifies set c | c in failed :: c`closed
      ensures forall c | c in failed :: c.closed
    {
      var rest := failed;
      while rest != {}
        invariant rest <= failed && forall c | c in failed - rest :: c.closed
        decreases |rest|
      {
        var channel :| channel in rest;
        rest := rest - {channel};
        channel.Close();
      }
    }

    method Deliver(payload: Bytes, ghost before: seq<Event>, ghost event: Event)
      requires payload == Payload(wire, event) && forall c | c in clients :: InStep(c, wire, before, queueSize)
      modifies this`clients, clients
      ensures clients == set c | c in old(clients) && !old(c.Full())
      ensures forall c | c in clients :: InStep(c, wire, before + [event], queueSize)
      ensures forall c | c in old(clients) - clients :: c.closed
    {
      var failed := Broadcast(payload);
      forall c | c in clients - failed ensures InStep(c, wire, before + [event], queueSize) {
        StreamGrows(wire, before, event, c.joined);
        assert c.sent + c.pending == old(c.sent + c.pending) + [payload];
      }
      clients := clients - failed;
      CloseAll(failed);
    }

    /** Every registered client is queued the event, or is dropped because its queue is full. */
    method Publish(event: Event) returns (r: Result<(), EncodeError>)
      requires Valid() && ("symbol" in event ==> event["symbol"].Text?)
      modifies this, clients
      ensures Valid()
      ensures r.Ok? <==> Encodable(event)
      ensures r.Err? ==> history == old(history) && clients == old(clients) && latest == old(latest)
      ensures r.Ok? ==> history == old(history) + [event] && clients == set c | c in old(clients) && !old(c.Full())
      ensures r.Ok? ==> forall c | c in old(clients) - clients :: c.closed
    {
      var encoded := EncodeEvent(wire, event);
      if encoded.Err? {
        return Err(encoded.error);
      }
      latest := latest[event["symbol"].text := event];
      history := history + [event];
      assert history[..|history| - 1] == old(history);
      Deliver(encoded.value, old(history), event);
      return Ok(());
    }

    /** A new client is registered only if the whole snapshot fits its queue. */
    method AcceptClient() returns (channel: ClientChannel)
      requires Valid()
      modifies this
      ensures Valid() && fresh(channel) && history == old(history) && latest == old(latest)
      ensures queueSize <= 0 || |latest| <= queueSize
              ==> clients == old(clients) + {channel} && channel.joined == |history|
      ensures !(queueSize <= 0 || |latest| <= queueSize) ==> clients == old(clients) && channel.closed
    {
      channel := OpenChannel();
      var fits := SendSnapshot(channel);
      if fits {
        Register(channel);
      } else {
        channel.Close();
      }
    }

    method OpenChannel() returns (channel: ClientChannel)
      requires Valid()
      ensures Valid() && fresh(channel) && channel.size == queueSize && channel.joined == |history|
      ensures !channel.closed && channel.pending == [] && channel.sent == []
    {
      channel := new ClientChannel(queueSize, |history|);
    }

    method Register(channel: ClientChannel)
      requires Valid() && InStep(channel, wire, history, queueSize)
      modifies this`clients
      ensures Valid() && clients == old(clients) + {channel}
    {
      clients := clients + {channel};
    }

    method SendSnapshot(channel: ClientChannel) returns (fits: bool)
      requires Valid() && channel !in clients && channel.size == queueSize && channel.joined == |history|
      requires !channel.closed && channel.pending == [] && channel.sent == []
      modifies channel`pending
      ensures Valid() && (fits <==> queueSize <= 0 || |latest| <= queueSize)
      ensures fits ==> InStep(channel, wire, history, queueSize)
    {
      fits := FillQueue(channel);
      if fits {
        StreamBegins(wire, history);
        assert channel.sent + channel.pending == channel.pending;
      }
    }

    method FillQueue(channel: ClientChannel) returns (fits: bool)
      requires !channel.closed && channel.pending == []
      modifies channel`pending
      ensures fits <==> channel.size <= 0 || |latest| <= channel.size
      ensures fits ==> channel.pending == Payloads(wire, Snapshot(latest))
    {
      var symbols := Sorted(latest.Keys);
      assert symbols[..0] == [] && |latest| == |latest.Keys|;
      assert forall k | k in symbols :: k in latest;
      var i := 0;
      fits := true;
      while i < |symbols| && fits
        invariant i <= |symbols|
        invariant forall k | k in symbols[..i] :: k in latest
        invariant fits ==> channel.pending == Payloads(wire, SnapshotEvents(latest, symbols[..i]))
        invariant fits ==> |channel.pending| == i && (channel.size <= 0 || i <= channel.size)
        invariant !fits ==> channel.size > 0 && |symbols| > channel.size
      {
        SnapshotGrows(wire, latest, symbols, i);
        assert symbols[..i + 1] == symbols[..i] + [symbols[i]];
        fits := channel.Enqueue(Payload(wire, latest[symbols[i]]));
        i := i + 1;
      }
      assert fits ==> symbols[..i] == symbols;
    }

    method DropClient(channel: ClientChannel)
      requires Valid()
      modifies this`clients, channel`closed
      ensures Valid() && clients == old(clients) - {channel} && channel.closed && history == old(history)
    {
      clients := clients - {channel};
      channel.Close();
    }

    method WriterStep(channel: ClientChannel)
      requires Valid() && channel in clients
      modifies channel`pending, channel`sent
      ensures Valid() && clients == old(clients) && history == old(history)
    {
      channel.WriteNext();
    }
  }

  lemma {:induction false} SnapshotAppend(latest: Ticks, symbols: seq<string>, k: string)
    requires k in latest && forall j | j in symbols :: j in latest
    ensures SnapshotEvents(latest, symbols + [k]) == SnapshotEvents(latest, symbols) + [latest[k]]
  {
    if symbols == [] {
      assert symbols + [k] == [k] && [k][1..] == [];
    } else {
      SnapshotAppend(latest, symbols[1..], k);
      assert (symbols + [k])[1..] == symbols[1..] + [k];
    }
  }

  lemma SnapshotGrows(w: Wire, latest: Ticks, symbols: seq<string>, i: nat)
    requires i < |symbols| && forall j | j in symbols :: j in latest
    ensures Payloads(w, SnapshotEvents(latest, symbols[..i + 1]))
         == Payloads(w, SnapshotEvents(latest, symbols[..i])) + [Payload(w, latest[symbols[i]])]
  {
    var e := latest[symbols[i]];
    assert symbols[..i + 1] == symbols[..i] + [symbols[i]];
    SnapshotAppend(latest, symbols[..i], symbols[i]);
    PayloadsConcat(w, SnapshotEvents(latest, symbols[..i]), [e]);
    assert [e][1..] == [] && Payloads(w, [e]) == [Payload(w, e)];
  }
}
