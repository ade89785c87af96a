/** Runs of the execution machine built step by step, for any account, generation, epoch, symbol, volume and client
    order. */
module ExecutionScenes {
  import opened Wrappers
  import opened Text
  import opened Session
  import opened Client
  import opened Orders
  import opened Authorization
  import opened Idempotency
  import opened Adapter
  import opened Execution
  import opened ExecutionExposure

  /** What the grants of a scene agree on. */
  datatype Scene = Scene(account: Fingerprint, generation: nat, epoch: nat, symbol: string, volume: real,
                         client: string) {
    predicate Valid() {
      account.mode == Demo && account.server != "" && 1 <= generation && 0.0 < volume && !Blank(symbol)
    }

    predicate Grants(a: Artifact) {
      && ValidArtifact(a) && a.account == TokenOf(account) && a.generation == generation && a.epoch == epoch
      && a.symbol == symbol && a.volume == volume && a.clientOrderId == client
    }

    // The request of the client order, and what its sender is known as.
    function Request(): Payload {
      Payload("request", Intent(client, symbol, 1, Market, Decimal(volume, 0), None, None, None, Gtc), 0)
    }

    function Expected(): Identity { Identity(generation, TokenOf(account)) }
    function View(): SessionView { SessionView(true, Some(TokenOf(account)), Demo, generation, epoch) }
    function Info(): AccountInfo { Account(Some(account.login), account.server, Code(DEMO_CODE)) }
    function Up(): EnsureScript { EnsureScript(Connected, Read(Info()), BuildComplete) }

    function Record(): IdemRecord {
      IdemRecord(client, PayloadHash(Request()), PendingRecord, None, "request", Some(Request()), Some(Expected()))
    }

    // The client after connecting for the g-th time, and after losing that connection.
    function Online(g: nat): ClientState {
      ClientState(GuardState(Phase.Ready, g, Some(account), Some(account), NoFault,
                             Some(KnownAccount(TokenOf(account)))),
                  true, None, [], false)
    }

    // The broker's history once the entry is filled as order 7 at position 9.
    function Deal(): RawDeal { RawDeal(7, 9, symbol, 0, 0, Correlation(client), volume) }
    function Position(): RawPosition { RawPosition(9, symbol, 0, volume) }

    function Reads(): ExposureReads {
      ExposureReads(Some([RawOrder(7, symbol, Correlation(client), volume, 0.0)]), Some([]), Some([Position()]),
                    Some([Deal()]),
                    Some([Position()]))
    }

    function Found(): Order { Order(7, "", Request().intent, Filled, volume, Some(1.0), 0, 0) }

    // Everything goes well, and the broker answers with this order number.
    function Answer(now: int, order: int): Oracle {
      Oracle(now, None, SendScript(Up(), Read(Info()), Read(Info()), Reply(10009, order), Read(Info()), BuildComplete),
             None, true, Some(volume), Reads(), CloseRequest(9, symbol, volume, 1), Some(Found()), 9, symbol, true)
    }

    function EntryThread(grant: string, pc: Pc): Thread { Thread(EntryJob(Request()), grant, View(), Expected(), pc) }

    function ExitThread(grant: string, pc: Pc): Thread { Thread(ExitJob(CloseExit, 9), grant, View(), Expected(), pc) }

    function EntrySent(id: nat, grant: string, order: int): Send {
      Send(id, grant, EntrySend, client, Some(PayloadHash(Request())), volume, 0, account, generation, epoch,
           Reply(10009, order))
    }

    function CloseSent(id: nat, grant: string, order: int): Send {
      Send(id, grant, CloseSend, client, None, volume, 1, account, generation, epoch, Reply(10009, order))
    }

    function Claimed(a: Artifact, order: Option<int>, position: Option<int>): Grant {
      Grant(a, false, Some(PayloadHash(Request())), order, position)
    }

    function ScopeOf(a: Artifact): Scope { Scope(a, None, None, true) }
    function Exposed(): Exposure { Exposure(client, 7, 9, symbol, volume) }

    predicate Here(s: State) { s.config == Config(true, true) && s.epoch == epoch }
  }

  // ---- The steps, each from any state that looks right to it ----

  lemma Provisioned(s: State, a: Artifact)
    requires ValidArtifact(a) && a.id !in s.auth.grants
    ensures Step(s, ProvisionGrant(a))
         == s.(auth := s.auth.(grants := s.auth.grants[a.id := Grant(a, false, None, None, None)]))
  {}

  lemma EntryBegins(sc: Scene, s: State, id: nat, grant: string)
    requires sc.Here(s) && id !in s.threads
    requires sc.client in s.idem ==> s.idem[sc.client].hash == PayloadHash(sc.Request())
    ensures Step(s, BeginEntry(id, grant, sc.Request(), sc.Expected(), sc.View(), sc.volume))
         == s.(threads := s.threads[id := sc.EntryThread(grant, Claiming)])
  {}

  lemma GrantClaimed(sc: Scene, s: State, id: nat, a: Artifact, order: int)
    requires sc.Grants(a) && Place in a.permissions
    requires id in s.threads && s.threads[id] == sc.EntryThread(a.id, Claiming)
    requires a.id in s.auth.grants && s.auth.grants[a.id] == Grant(a, false, None, None, None)
    ensures Step(s, StepThread(id, sc.Answer(a.entryNotBefore, order)))
         == s.(auth := s.auth.(grants := s.auth.grants[a.id := sc.Claimed(a, None, None)]),
               threads := s.threads[id := sc.EntryThread(a.id, Reserving(true))])
  {}

  lemma RecordReserved(sc: Scene, s: State, id: nat, grant: string, o: Oracle)
    requires id in s.threads && s.threads[id] == sc.EntryThread(grant, Reserving(true)) && sc.client !in s.idem
    ensures Step(s, StepThread(id, o))
         == s.(idem := s.idem[sc.client := sc.Record()], threads := s.threads[id := sc.EntryThread(grant, Preparing)])
  {}

  lemma EntryPrepared(sc: Scene, s: State, id: nat, grant: string, o: Oracle)
    requires id in s.threads && s.threads[id] == sc.EntryThread(grant, Preparing) && o.refusal.None?
    ensures Step(s, StepThread(id, o)) == s.(threads := s.threads[id := sc.EntryThread(grant, Sending)])
  {}

  lemma SessionStaysUp(sc: Scene, now: int, order: int)
    requires sc.Valid()
    ensures SendOnce(sc.Online(sc.generation), sc.Expected(), None, None, sc.Answer(now, order).script)
         == SendReport(sc.Online(sc.generation), true, Some(sc.account), SentOk(order, 10009))
  {
    assert Candidate(sc.Info()) == Some(sc.account);
    assert EnsureConnected(sc.Online(sc.generation), sc.Up()) == (sc.Online(sc.generation), Established);
    assert ValidateFresh(sc.Online(sc.generation).guard, sc.Expected(), Read(sc.Info())) == Ok(sc.account);
    assert ObserveSession(sc.Online(sc.generation), Read(sc.Info())) == sc.Online(sc.generation);
  }

  lemma EntryIsSent(sc: Scene, s: State, id: nat, a: Artifact, order: int)
    requires sc.Valid() && sc.Grants(a) && Place in a.permissions
    requires sc.Here(s) && id in s.threads && s.threads[id] == sc.EntryThread(a.id, Sending)
    requires s.client == sc.Online(sc.generation)
    requires a.id in s.auth.grants && s.auth.grants[a.id] == sc.Claimed(a, None, None)
    ensures Step(s, StepThread(id, sc.Answer(a.entryNotBefore, order)))
         == s.(sends := s.sends + [sc.EntrySent(id, a.id, order)],
               threads := s.threads[id := sc.EntryThread(a.id,
                                                         Storing(EntryEpilogue("request", SentOk(order, 10009))))])
  {
    var t := s.threads[id];
    assert AuthorizeEntry(s.auth, t.grant, t.view, sc.Request(), a.entryNotBefore).Ok?;
    SessionStaysUp(sc, a.entryNotBefore, order);
  }

  lemma ExitBegins(sc: Scene, s: State, id: nat, grant: string)
    requires sc.Here(s) && id !in s.threads
    ensures Step(s, BeginExit(id, grant, CloseExit, 9, sc.Expected(), sc.View()))
         == s.(threads := s.threads[id := sc.ExitThread(grant, Scoping)])
  {}

  lemma ScopeTaken(sc: Scene, s: State, id: nat, a: Artifact, o: Oracle)
    requires sc.Grants(a) && id in s.threads && s.threads[id] == sc.ExitThread(a.id, Scoping)
    requires a.id in s.auth.grants && s.auth.grants[a.id] == sc.Claimed(a, None, None)
    ensures Step(s, StepThread(id, o)) == s.(threads := s.threads[id := sc.ExitThread(a.id, Examining(sc.ScopeOf(a)))])
  {}

  lemma TargetExamined(sc: Scene, s: State, id: nat, a: Artifact, o: Oracle)
    requires id in s.threads && s.threads[id] == sc.ExitThread(a.id, Examining(sc.ScopeOf(a)))
    ensures Step(s, StepThread(id, o)) == s.(threads := s.threads[id := sc.ExitThread(a.id, Locating(sc.ScopeOf(a)))])
  {}

  lemma OrderLocated(sc: Scene, s: State, id: nat, a: Artifact, now: int, order: int)
    requires sc.Valid() && sc.Grants(a)
    requires id in s.threads && s.threads[id] == sc.ExitThread(a.id, Locating(sc.ScopeOf(a)))
    requires sc.client in s.idem && s.idem[sc.client] == sc.Record()
    ensures Step(s, StepThread(id, sc.Answer(now, order)))
         == s.(threads := s.threads[id := sc.ExitThread(a.id, BindingOrder(sc.ScopeOf(a), 7))])
  {
    RestoredIffAgrees(sc.Found(), sc.Request());
  }

  lemma OrderBound(sc: Scene, s: State, id: nat, a: Artifact, o: Oracle)
    requires sc.Grants(a) && id in s.threads && s.threads[id] == sc.ExitThread(a.id, BindingOrder(sc.ScopeOf(a), 7))
    requires a.id in s.auth.grants && s.auth.grants[a.id] == sc.Claimed(a, None, None)
    ensures Step(s, StepThread(id, o))
         == s.(auth := s.auth.(grants := s.auth.grants[a.id := sc.Claimed(a, Some(7), None)]),
               threads := s.threads[id := sc.ExitThread(a.id, Exposing(sc.ScopeOf(a), 7))])
  {}

  lemma ReadsProveExposure(sc: Scene)
    requires sc.Valid()
    ensures ExposureProven(sc.Exposed(), sc.Reads(), CloseExit)
    ensures CloseRequestProven(sc.Exposed(), sc.Reads(), CloseRequest(9, sc.symbol, sc.volume, 1))
  {
    var orders := sc.Reads().history.value + sc.Reads().active.value;
    assert orders[0] in orders && orders[0].ticket == 7;
    assert TotalVolume([sc.Deal()]) == TotalVolume([sc.Deal()][..0]) + sc.volume;
  }

  lemma ExposureShown(sc: Scene, s: State, id: nat, a: Artifact, now: int, order: int)
    requires sc.Valid() && sc.Grants(a)
    requires id in s.threads && s.threads[id] == sc.ExitThread(a.id, Exposing(sc.ScopeOf(a), 7))
    ensures Step(s, StepThread(id, sc.Answer(now, order)))
         == s.(threads := s.threads[id := sc.ExitThread(a.id, BindingPosition(sc.Exposed()))])
  {
    ReadsProveExposure(sc);
  }

  lemma PositionBound(sc: Scene, s: State, id: nat, a: Artifact, o: Oracle)
    requires sc.Grants(a) && id in s.threads && s.threads[id] == sc.ExitThread(a.id, BindingPosition(sc.Exposed()))
    requires a.id in s.auth.grants && s.auth.grants[a.id] == sc.Claimed(a, Some(7), None)
    ensures Step(s, StepThread(id, o))
         == s.(auth := s.auth.(grants := s.auth.grants[a.id := sc.Claimed(a, Some(7), Some(9))]),
               threads := s.threads[id := sc.ExitThread(a.id, ReservingExit(sc.Exposed()))])
  {}

  lemma ExitReserved(sc: Scene, s: State, id: nat, a: Artifact, order: int)
    requires sc.Grants(a) && Close in a.permissions
    requires id in s.threads && s.threads[id] == sc.ExitThread(a.id, ReservingExit(sc.Exposed()))
    requires a.id in s.auth.grants && s.auth.grants[a.id] == sc.Claimed(a, Some(7), Some(9))
    requires ExitKey(a.id, CloseExit, 9) !in s.auth.exits
    ensures Step(s, StepThread(id, sc.Answer(a.entryNotBefore, order)))
         == s.(auth := s.auth.(exits := s.auth.exits[ExitKey(a.id, CloseExit, 9) := ExitPending]),
               threads := s.threads[id := sc.ExitThread(a.id, SendingExit(sc.Exposed()))])
  {}

  lemma CloseIsSent(sc: Scene, s: State, id: nat, a: Artifact, order: int)
    requires sc.Valid() && sc.Grants(a) && Close in a.permissions
    requires sc.Here(s) && id in s.threads && s.threads[id] == sc.ExitThread(a.id, SendingExit(sc.Exposed()))
    requires s.client == sc.Online(sc.generation)
    requires a.id in s.auth.grants && s.auth.grants[a.id] == sc.Claimed(a, Some(7), Some(9))
    ensures var s' := Step(s, StepThread(id, sc.Answer(a.entryNotBefore, order)));
            s'.sends == s.sends + [sc.CloseSent(id, a.id, order)] && s'.deals == s.deals && s'.auth == s.auth
  {
    ReadsProveExposure(sc);
    SessionStaysUp(sc, a.entryNotBefore, order);
  }

  // ---- Runs ----

  const START: State := Initial(Config(true, true))

  // The events lead to the state, each of them reading the broker's own history.
  ghost predicate Leads(events: seq<Event>, s: State) {
    RunEvents(START, events) == s && TruthfulRun(Config(true, true), events)
  }

  lemma Extend(events: seq<Event>, s: State, e: Event)
    requires Leads(events, s) && Truthful(s, e)
    ensures Leads(events + [e], Step(s, e))
  {
    var longer := events + [e];
    assert longer[..|events|] == events;
    forall k | 0 <= k < |longer| ensures Truthful(RunEvents(START, longer[..k]), longer[k]) {
      if k < |events| {
        assert longer[..k] == events[..k];
      }
    }
  }

  // Connecting, or losing the connection and connecting again.
  lemma Connects(sc: Scene, g: nat)
    requires sc.Valid()
    ensures Apply(FRESH_CLIENT, Ensure(sc.Up())) == sc.Online(1)
    ensures Apply(Apply(sc.Online(g), ResetConnection), Ensure(sc.Up())) == sc.Online(g + 1)
  {
    assert Candidate(sc.Info()) == Some(sc.account);
  }

  lemma {:induction false} AtGeneration(sc: Scene, events: seq<Event>, s: State, g: nat)
    returns (longer: seq<Event>, s': State)
    requires sc.Valid() && 1 <= g && Leads(events, s) && s.client == FRESH_CLIENT
    ensures Leads(longer, s') && s' == s.(client := sc.Online(g))
  {
    if g == 1 {
      var up := UseClient(Ensure(sc.Up()));
      Connects(sc, 1);
      Extend(events, s, up);
      longer, s' := events + [up], Step(s, up);
    } else {
      longer, s' := AtGeneration(sc, events, s, g - 1);
      var down, up := UseClient(ResetConnection), UseClient(Ensure(sc.Up()));
      Connects(sc, g - 1);
      Extend(longer, s', down);
      longer, s' := longer + [down], Step(s', down);
      Extend(longer, s', up);
      longer, s' := longer + [up], Step(s', up);
    }
  }

  // Up to where the scene begins: its epoch is running, the session is at its generation, and nothing else has
  // happened.
  lemma SceneOpens(sc: Scene) returns (events: seq<Event>, s: State)
    requires sc.Valid()
    ensures Leads(events, s) && s == START.(epoch := sc.epoch, client := sc.Online(sc.generation))
  {
    events, s := [], START;
    if 0 < sc.epoch {
      Extend(events, s, Crash(sc.epoch));
      events, s := events + [Crash(sc.epoch)], Step(s, Crash(sc.epoch));
      assert s == START.(epoch := sc.epoch);
    }
    events, s := AtGeneration(sc, events, s, sc.generation);
  }

  lemma RequestBegun(sc: Scene, events: seq<Event>, s: State, id: nat, grant: string)
    returns (longer: seq<Event>, s': State)
    requires Leads(events, s) && sc.Here(s)
    requires id !in s.threads && (sc.client in s.idem ==> s.idem[sc.client].hash == PayloadHash(sc.Request()))
    ensures Leads(longer, s') && s' == s.(threads := s.threads[id := sc.EntryThread(grant, Claiming)])
  {
    var begin := BeginEntry(id, grant, sc.Request(), sc.Expected(), sc.View(), sc.volume);
    EntryBegins(sc, s, id, grant);
    Extend(events, s, begin);
    longer, s' := events + [begin], Step(s, begin);
  }

  lemma RequestClaimed(sc: Scene, events: seq<Event>, s: State, id: nat, a: Artifact, order: int)
    returns (longer: seq<Event>, s': State)
    requires sc.Grants(a) && Place in a.permissions && Leads(events, s) && sc.Here(s)
    requires id !in s.threads && (sc.client in s.idem ==> s.idem[sc.client].hash == PayloadHash(sc.Request()))
    requires a.id in s.auth.grants && s.auth.grants[a.id] == Grant(a, false, None, None, None)
    ensures Leads(longer, s')
    ensures s' == s.(auth := s.auth.(grants := s.auth.grants[a.id := sc.Claimed(a, None, None)]),
                     threads := s.threads[id := sc.EntryThread(a.id, Reserving(true))])
  {
    longer, s' := RequestBegun(sc, events, s, id, a.id);
    var go := StepThread(id, sc.Answer(a.entryNotBefore, order));
    GrantClaimed(sc, s', id, a, order);
    Extend(longer, s', go);
    longer, s' := longer + [go], Step(s', go);
    Renewed(s.threads, id, sc.EntryThread(a.id, Claiming), sc.EntryThread(a.id, Reserving(true)));
  }

  // A claimed and reserved request, ready to be prepared.
  lemma RequestReserved(sc: Scene, events: seq<Event>, s: State, id: nat, a: Artifact, order: int)
    returns (longer: seq<Event>, s': State)
    requires sc.Grants(a) && Place in a.permissions && Leads(events, s) && sc.Here(s)
    requires id !in s.threads && sc.client !in s.idem
    requires a.id in s.auth.grants && s.auth.grants[a.id] == Grant(a, false, None, None, None)
    ensures Leads(longer, s')
    ensures s' == s.(auth := s.auth.(grants := s.auth.grants[a.id := sc.Claimed(a, None, None)]),
                     idem := s.idem[sc.client := sc.Record()],
                       threads := s.threads[id := sc.EntryThread(a.id, Preparing)])
  {
    longer, s' := RequestClaimed(sc, events, s, id, a, order);
    var go := StepThread(id, sc.Answer(a.entryNotBefore, order));
    RecordReserved(sc, s', id, a.id, sc.Answer(a.entryNotBefore, order));
    Extend(longer, s', go);
    longer, s' := longer + [go], Step(s', go);
    Renewed(s.threads, id, sc.EntryThread(a.id, Reserving(true)), sc.EntryThread(a.id, Preparing));
  }

  // The entry is sent and answered with the order number.
  lemma RequestSent(sc: Scene, events: seq<Event>, s: State, id: nat, a: Artifact, order: int)
    returns (longer: seq<Event>, s': State)
    requires sc.Valid() && sc.Grants(a) && Place in a.permissions && Leads(events, s) && sc.Here(s)
    requires id !in s.threads && sc.client !in s.idem && s.client == sc.Online(sc.generation)
    requires a.id in s.auth.grants && s.auth.grants[a.id] == Grant(a, false, None, None, None)
    ensures Leads(longer, s')
    ensures s' == s.(auth := s.auth.(grants := s.auth.grants[a.id := sc.Claimed(a, None, None)]),
                     idem := s.idem[sc.client := sc.Record()], sends := s.sends + [sc.EntrySent(id, a.id, order)],
                     threads := s.threads[id := sc.EntryThread(a.id,
                                                               Storing(EntryEpilogue("request",
                                                                     SentOk(order, 10009))))])
  {
    longer, s' := RequestPrepared(sc, events, s, id, a, order);
    var go := StepThread(id, sc.Answer(a.entryNotBefore, order));
    EntryIsSent(sc, s', id, a, order);
    Extend(longer, s', go);
    longer, s' := longer + [go], Step(s', go);
    Renewed(s.threads, id, sc.EntryThread(a.id, Sending),
            sc.EntryThread(a.id, Storing(EntryEpilogue("request", SentOk(order, 10009)))));
  }

  lemma Renewed(threads: map<nat, Thread>, id: nat, t: Thread, u: Thread)
    ensures threads[id := t][id := u] == threads[id := u]
  {}

  lemma RequestPrepared(sc: Scene, events: seq<Event>, s: State, id: nat, a: Artifact, order: int)
    returns (longer: seq<Event>, s': State)
    requires sc.Grants(a) && Place in a.permissions && Leads(events, s) && sc.Here(s)
    requires id !in s.threads && sc.client !in s.idem
    requires a.id in s.auth.grants && s.auth.grants[a.id] == Grant(a, false, None, None, None)
    ensures Leads(longer, s')
    ensures s' == s.(auth := s.auth.(grants := s.auth.grants[a.id := sc.Claimed(a, None, None)]),
                     idem := s.idem[sc.client := sc.Record()],
                       threads := s.threads[id := sc.EntryThread(a.id, Sending)])
  {
    longer, s' := RequestReserved(sc, events, s, id, a, order);
    var go := StepThread(id, sc.Answer(a.entryNotBefore, order));
    EntryPrepared(sc, s', id, a.id, go.oracle);
    Extend(longer, s', go);
    longer, s' := longer + [go], Step(s', go);
    Renewed(s.threads, id, sc.EntryThread(a.id, Preparing), sc.EntryThread(a.id, Sending));
  }
}
