/** Two grants for one client order: the exposure of the one that made no entry leaves its bound. */
module ExecutionShared {
  import opened Wrappers
  import opened Session
  import opened Authorization
  import opened Adapter
  import opened Execution
  import opened ExecutionExposure
  import opened ExecutionScenes

  // The two grants agree on everything but their identity, windows and owner; the first may place, the second also
  // close.
  predicate Twins(sc: Scene, one: Artifact, two: Artifact) {
    && sc.Valid() && sc.Grants(one) && sc.Grants(two) && one.id != two.id
    && Place in one.permissions && Place in two.permissions && Close in two.permissions
  }

  function Fresh(a: Artifact): Grant { Grant(a, false, None, None, None) }

  // The state after the entry under the first grant went out and the second was claimed by a replay of the request.
  predicate EntryOut(sc: Scene, one: Artifact, two: Artifact, s: State) {
    && sc.Here(s) && s.threads.Keys == {0, 1} && s.client == sc.Online(sc.generation)
      && s.sends == [sc.EntrySent(0, one.id, 7)]
    && s.deals == [] && s.idem == map[sc.client := sc.Record()] && s.auth.exits == map[]
    && s.auth.grants == map[one.id := sc.Claimed(one, None, None), two.id := sc.Claimed(two, None, None)]
  }

  lemma AfterProvisions(sc: Scene, one: Artifact, two: Artifact) returns (events: seq<Event>, s: State)
    requires Twins(sc, one, two)
    ensures Leads(events, s)
    ensures s == START.(epoch := sc.epoch, client := sc.Online(sc.generation),
                        auth := START.auth.(grants := map[one.id := Fresh(one), two.id := Fresh(two)]))
  {
    events, s := SceneOpens(sc);
    Provisioned(s, one);
    Extend(events, s, ProvisionGrant(one));
    events, s := events + [ProvisionGrant(one)], Step(s, ProvisionGrant(one));
    Provisioned(s, two);
    Extend(events, s, ProvisionGrant(two));
    events, s := events + [ProvisionGrant(two)], Step(s, ProvisionGrant(two));
  }

  lemma AfterClaims(sc: Scene, one: Artifact, two: Artifact) returns (events: seq<Event>, s: State)
    requires Twins(sc, one, two)
    ensures Leads(events, s) && EntryOut(sc, one, two, s)
  {
    events, s := AfterProvisions(sc, one, two);
    events, s := RequestSent(sc, events, s, 0, one, 7);
    events, s := RequestClaimed(sc, events, s, 1, two, 7);
  }

  lemma FilledOnce(sc: Scene, grant: string, s: State)
    requires sc.Valid() && s.sends == [sc.EntrySent(0, grant, 7)] && s.deals == []
    ensures Step(s, Fill(0, 7, 9, sc.symbol, sc.volume)) == s.(deals := [BrokerDeal(Some(0), sc.Deal())])
  {
    assert FilledBy(s.deals, 0) == 0.0;
    assert s.deals + [BrokerDeal(Some(0), sc.Deal())] == [BrokerDeal(Some(0), sc.Deal())];
  }

  // The exit under the second grant at one of its program counters.
  predicate Exiting(sc: Scene, one: Artifact, two: Artifact, s: State, pc: Pc, row: Grant) {
    && sc.Here(s) && 2 in s.threads && s.threads[2] == sc.ExitThread(two.id, pc) && s.client == sc.Online(sc.generation)
    && s.sends == [sc.EntrySent(0, one.id, 7)] && s.deals == [BrokerDeal(Some(0), sc.Deal())]
    && s.idem == map[sc.client := sc.Record()] && s.auth.exits == map[]
    && s.auth.grants == map[one.id := sc.Claimed(one, None, None), two.id := row]
  }

  lemma AfterScope(sc: Scene, one: Artifact, two: Artifact) returns (events: seq<Event>, s: State)
    requires Twins(sc, one, two)
    ensures Leads(events, s) && Exiting(sc, one, two, s, Examining(sc.ScopeOf(two)), sc.Claimed(two, None, None))
  {
    events, s := AfterClaims(sc, one, two);
    var fill, begin := Fill(0, 7, 9, sc.symbol, sc.volume),
      BeginExit(2, two.id, CloseExit, 9, sc.Expected(), sc.View());
    FilledOnce(sc, one.id, s);
    Extend(events, s, fill);
    events, s := events + [fill], Step(s, fill);
    ExitBegins(sc, s, 2, two.id);
    Extend(events, s, begin);
    events, s := events + [begin], Step(s, begin);
    var go := StepThread(2, sc.Answer(two.entryNotBefore, 8));
    ScopeTaken(sc, s, 2, two, go.oracle);
    Extend(events, s, go);
    events, s := events + [go], Step(s, go);
  }

  lemma AfterLocate(sc: Scene, one: Artifact, two: Artifact) returns (events: seq<Event>, s: State)
    requires Twins(sc, one, two)
    ensures Leads(events, s) && Exiting(sc, one, two, s, BindingOrder(sc.ScopeOf(two), 7), sc.Claimed(two, None, None))
  {
    events, s := AfterScope(sc, one, two);
    var go := StepThread(2, sc.Answer(two.entryNotBefore, 8));
    TargetExamined(sc, s, 2, two, go.oracle);
    Extend(events, s, go);
    events, s := events + [go], Step(s, go);
    OrderLocated(sc, s, 2, two, two.entryNotBefore, 8);
    Extend(events, s, go);
    events, s := events + [go], Step(s, go);
  }

  lemma AfterBinding(sc: Scene, one: Artifact, two: Artifact) returns (events: seq<Event>, s: State)
    requires Twins(sc, one, two)
    ensures Leads(events, s) && Exiting(sc, one, two, s, ReservingExit(sc.Exposed()), sc.Claimed(two, Some(7), Some(9)))
  {
    events, s := AfterLocate(sc, one, two);
    var go := StepThread(2, sc.Answer(two.entryNotBefore, 8));
    OrderBound(sc, s, 2, two, go.oracle);
    Extend(events, s, go);
    events, s := events + [go], Step(s, go);
    ExposureShown(sc, s, 2, two, two.entryNotBefore, 8);
    Extend(events, s, go);
    events, s := events + [go], Step(s, go);
    PositionBound(sc, s, 2, two, go.oracle);
    Extend(events, s, go);
    events, s := events + [go], Step(s, go);
  }

  // What the broker says before the close is its own history.
  lemma ReadsAreTruthful(sc: Scene, s: State, two: Artifact, now: int)
    requires 2 in s.threads && s.threads[2] == sc.ExitThread(two.id, SendingExit(sc.Exposed()))
    requires s.deals == [BrokerDeal(Some(0), sc.Deal())]
    ensures Truthful(s, StepThread(2, sc.Answer(now, 8)))
  {
    assert s.deals[..0] == [];
    assert PositionDeals(s.deals, 9) == PositionDeals([], 9) + [sc.Deal()];
  }

  lemma AfterClose(sc: Scene, one: Artifact, two: Artifact) returns (events: seq<Event>, s: State)
    requires Twins(sc, one, two)
    ensures Leads(events, s) && s.sends == [sc.EntrySent(0, one.id, 7), sc.CloseSent(2, two.id, 8)]
    ensures s.deals == [BrokerDeal(Some(0), sc.Deal())]
    ensures s.auth.grants == map[one.id := sc.Claimed(one, None, None), two.id := sc.Claimed(two, Some(7), Some(9))]
  {
    events, s := AfterBinding(sc, one, two);
    var go := StepThread(2, sc.Answer(two.entryNotBefore, 8));
    ExitReserved(sc, s, 2, two, 8);
    Extend(events, s, go);
    events, s := events + [go], Step(s, go);
    CloseIsSent(sc, s, 2, two, 8);
    ReadsAreTruthful(sc, s, two, two.entryNotBefore);
    Extend(events, s, go);
    events, s := events + [go], Step(s, go);
  }

  function Closing(sc: Scene): RawDeal { RawDeal(8, 9, sc.symbol, 1, 1, OtherComment, sc.volume) }

  lemma ClosedOnce(sc: Scene, one: Artifact, two: Artifact, s: State)
    requires sc.Valid() && s.sends == [sc.EntrySent(0, one.id, 7), sc.CloseSent(2, two.id, 8)]
    requires s.deals == [BrokerDeal(Some(0), sc.Deal())]
    ensures var s' := Step(s, Fill(1, 8, 9, sc.symbol, sc.volume));
            && s' == s.(deals := [BrokerDeal(Some(0), sc.Deal()), BrokerDeal(Some(1), Closing(sc))])
            && FilledBy(s'.deals, 1) == sc.volume
  {
    var deals := [BrokerDeal(Some(0), sc.Deal()), BrokerDeal(Some(1), Closing(sc))];
    assert s.deals[..0] == [];
    assert FilledBy(s.deals, 1) == FilledBy([], 1) + 0.0;
    assert s.deals + [BrokerDeal(Some(1), Closing(sc))] == deals;
    assert deals[..1] == s.deals;
  }

  /** Any two grants that share account, generation, epoch, symbol, volume and client order, of which the first may
      place and the second may place and close, have a run in which every read is the broker's own history and the
      second grant, without an entry of its own, ends outside its bound. */
  lemma SharedClientBreaksBound(account: Fingerprint, one: Artifact, two: Artifact)
    requires ValidArtifact(one) && ValidArtifact(two) && one.id != two.id
    requires one.account == two.account == TokenOf(account) && account.mode == Demo && account.server != ""
    requires one.generation == two.generation && one.epoch == two.epoch && one.symbol == two.symbol
    requires one.volume == two.volume && one.clientOrderId == two.clientOrderId
    requires Place in one.permissions && Place in two.permissions && Close in two.permissions
    ensures exists events ::
              && TruthfulRun(Config(true, true), events)
              && var s := RunEvents(START, events);
              && one.id in s.auth.grants && s.auth.grants[one.id].artifact == one
              && two.id in s.auth.grants && s.auth.grants[two.id].artifact == two
              && !WithinGrant(s, two.id)
  {
    var sc := Scene(account, one.generation, one.epoch, one.symbol, one.volume, one.clientOrderId);
    var events, s := AfterClose(sc, one, two);
    var fill := Fill(1, 8, 9, sc.symbol, sc.volume);
    ClosedOnce(sc, one, two, s);
    Extend(events, s, fill);
    events, s := events + [fill], Step(s, fill);
    WithinGrantIff(Config(true, true), events, two.id);
    assert ClosedBy(s, two.id, 1);
    assert !exists i: nat :: EntryOf(s, i, two.id);
  }
}
