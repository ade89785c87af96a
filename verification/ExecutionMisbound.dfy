/** A request whose order the broker accepted and whose record still ends failed. */
module ExecutionMisbound {
  import opened Session
  import opened Authorization
  import opened Execution
  import opened ExecutionSafety
  import opened ExecutionRecords
  import opened ExecutionScenes

  lemma StoreKeepsShape(s: State, id: nat)
    requires id in s.threads && s.threads[id].pc.Storing?
    ensures Store(s, id).sends == s.sends && id in Store(s, id).threads && Store(s, id).threads[id].pc.Storing?
  {}

  lemma StepIsStore(s: State, id: nat, o: Oracle)
    requires id in s.threads && s.threads[id].pc.Storing?
    ensures Step(s, StepThread(id, o)) == Store(s, id)
  {}

  // One write of a thread is one event, and sends nothing.
  lemma OneWrite(events: seq<Event>, s: State, id: nat, o: Oracle) returns (longer: seq<Event>, s': State)
    requires Leads(events, s) && id in s.threads && s.threads[id].pc.Storing?
    ensures Leads(longer, s') && s' == Store(s, id) && s'.sends == s.sends && id in s'.threads
    ensures s'.threads[id].pc.Storing?
  {
    var go := StepThread(id, o);
    Extend(events, s, go);
    StoreKeepsShape(s, id);
    StepIsStore(s, id, o);
    longer, s' := events + [go], Step(s, go);
  }

  lemma FourWrites(events: seq<Event>, s: State, id: nat, o: Oracle) returns (longer: seq<Event>, end: State)
    requires Leads(events, s) && id in s.threads && s.threads[id].pc.Storing?
    ensures Leads(longer, end) && end == Store(Store(Store(Store(s, id), id), id), id) && end.sends == s.sends
  {
    longer, end := OneWrite(events, s, id, o);
    longer, end := OneWrite(longer, end, id, o);
    longer, end := OneWrite(longer, end, id, o);
    longer, end := OneWrite(longer, end, id, o);
  }

  /** For any grant that may place an entry and any negative order number, there is a run in which the broker accepts
      the grant's order under that number and the record of its client order ends failed. */
  lemma AcceptedOrderMayEndFailed(account: Fingerprint, a: Artifact, order: int)
    requires ValidArtifact(a) && a.account == TokenOf(account) && account.mode == Demo && account.server != ""
    requires Place in a.permissions && order < 0
    ensures exists events ::
              var s := RunEvents(START, events);
              && (exists x ::
                  x in s.sends && EntryFor(x, a.clientOrderId) && Accepting(x.reply) && x.reply.order == order)
              && a.clientOrderId in s.idem && s.idem[a.clientOrderId].state.Failed?
  {
    var sc := Scene(account, a.generation, a.epoch, a.symbol, a.volume, a.clientOrderId);
    var events, s := SceneOpens(sc);
    Provisioned(s, a);
    Extend(events, s, ProvisionGrant(a));
    events, s := events + [ProvisionGrant(a)], Step(s, ProvisionGrant(a));
    events, s := RequestSent(sc, events, s, 0, a, order);
    RunKeepsInv(Config(true, true), events);
    AcceptedEndsFailedIff(s, 0, order, 10009);
    events, s := FourWrites(events, s, 0, sc.Answer(a.entryNotBefore, order));
    assert sc.EntrySent(0, a.id, order) in s.sends;
  }
}
