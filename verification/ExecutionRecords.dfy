/** What a request record that ends "failed" says about the broker. */
module ExecutionRecords {
  import opened Wrappers
  import opened Orders
  import opened Authorization
  import opened Idempotency
  import opened Adapter
  import opened Execution
  import opened ExecutionSafety

  predicate Accepting(r: Reply) { r.Reply? && r.retcode in SUCCESS_RETCODES }

  predicate Rejecting(r: Reply) { r.Reply? && r.retcode !in SUCCESS_RETCODES + AMBIGUOUS_RETCODES }

  predicate EntryFor(x: Send, client: string) { x.op.EntrySend? && x.clientOrderId == client }

  // Nothing was sent for the client order, or the broker rejected what was sent.
  predicate NotAccepted(sends: seq<Send>, client: string) {
    forall x | x in sends && EntryFor(x, client) :: Rejecting(x.reply)
  }

  // The broker accepted an order under this number for the grant's entry.
  predicate AnsweredWith(sends: seq<Send>, grant: string, client: string, order: int) {
    exists x :: x in sends && EntryFor(x, client) && x.grant == grant && Accepting(x.reply) && x.reply.order == order
  }

  // An accepted entry that cannot be bound: its number is negative, or its grant is bound to another order.
  predicate Unbindable(auth: AuthDb, x: Send) {
    && Accepting(x.reply)
    && (x.reply.order < 0
        || (x.grant in auth.grants && auth.grants[x.grant].orderId.Some?
            && auth.grants[x.grant].orderId.value != x.reply.order))
  }

  predicate Misbound(auth: AuthDb, sends: seq<Send>, client: string) {
    exists x :: x in sends && EntryFor(x, client) && Unbindable(auth, x)
  }

  // Why a request may have failed: nothing was accepted, or what was accepted could not be bound.
  predicate Excused(auth: AuthDb, sends: seq<Send>, client: string) {
    NotAccepted(sends, client) || Misbound(auth, sends, client)
  }

  predicate FailureExplained(auth: AuthDb, sends: seq<Send>, client: string, outcome: Option<Outcome>) {
    || (outcome.Some? && outcome.value.Recovered? && outcome.value.status.Rejected?)
    || (outcome.Some? && outcome.value.Errored? && Excused(auth, sends, client))
  }

  predicate ActionOk(s: State, t: Thread, a: StoreAction) {
    match a
    case FinishAs(state, outcome) =>
      state.Failed? ==>
        if t.job.EntryJob? then outcome.Errored? && Excused(s.auth, s.sends, ClientOrder(t))
        else outcome.Recovered? && outcome.status.Rejected?
    case BindOrder(order) =>
      t.job.EntryJob? && ClaimBacked(s, t) && order != 0 && AnsweredWith(s.sends, t.grant, ClientOrder(t), order)
    case _ => true
  }

  predicate ThreadExplained(s: State, t: Thread) {
    t.pc.Storing? ==> forall a | a in t.pc.todo :: ActionOk(s, t, a)
  }

  predicate RecordExplained(s: State, id: string) {
    id in s.idem && s.idem[id].state.Failed? ==> FailureExplained(s.auth, s.sends, id, s.idem[id].outcome)
  }

  // A record closed by its own request leaves no thread that could still send for it.
  predicate Settled(s: State) {
    forall id, i | id in s.idem && s.idem[id].state.Failed? && i in s.threads && s.idem[id].outcome.Some?
                   && s.idem[id].outcome.value.Errored? && MaySendEntry(s.threads[i]) :: ClientOrder(s.threads[i]) != id
  }

  predicate Explained(s: State) {
    && (forall i | i in s.threads :: ThreadExplained(s, s.threads[i]))
    && (forall id | id in s.idem :: RecordExplained(s, id))
    && Settled(s)
  }

  // Bound orders stay bound, so an excuse stays good.
  lemma ExcuseStays(auth: AuthDb, after: AuthDb, sends: seq<Send>, client: string)
    requires Rises(auth, after) && Excused(auth, sends, client)
    ensures Excused(after, sends, client)
  {
    if x :| x in sends && EntryFor(x, client) && Unbindable(auth, x) {
      assert x.grant in auth.grants ==> GrantRises(auth.grants[x.grant], after.grants[x.grant]);
      assert Unbindable(after, x);
    }
  }

  // ---- Steps that send nothing ----

  lemma ThreadStaysExplained(s: State, s': State, t: Thread)
    requires ThreadExplained(s, t) && Later(s, s') && s'.sends == s.sends
    ensures ThreadExplained(s', t)
  {
    if t.pc.Storing? {
      forall a | a in t.pc.todo ensures ActionOk(s', t, a) {
        ActionStaysOk(s, s', t, a);
      }
    }
  }

  lemma ActionStaysOk(s: State, s': State, t: Thread, a: StoreAction)
    requires ActionOk(s, t, a) && Later(s, s') && s'.sends == s.sends
    ensures ActionOk(s', t, a)
  {
    if t.job.EntryJob? && Excused(s.auth, s.sends, ClientOrder(t)) {
      ExcuseStays(s.auth, s'.auth, s.sends, ClientOrder(t));
    }
  }

  lemma RecordStaysExplained(s: State, s': State, id: string)
    requires RecordExplained(s, id) && Later(s, s') && s'.sends == s.sends && id in s.idem && id in s'.idem
    requires s'.idem[id] == s.idem[id]
    ensures RecordExplained(s', id)
  {
    if Excused(s.auth, s.sends, id) {
      ExcuseStays(s.auth, s'.auth, s.sends, id);
    }
  }

  // One thread moves; every row it changes is explained.
  lemma MoveStaysExplained(s: State, m: State, id: nat, pc: Pc)
    requires Explained(s) && id in s.threads
    requires Later(s, m) && m.sends == s.sends && m.threads == s.threads
    requires ThreadExplained(m, s.threads[id].(pc := pc))
    requires forall c | c in m.idem :: (c in s.idem && m.idem[c] == s.idem[c]) || RecordExplained(m, c)
    requires Settled(Goto(m, id, pc))
    ensures Explained(Goto(m, id, pc))
  {
    var s' := Goto(m, id, pc);
    forall i | i in s'.threads ensures ThreadExplained(s', s'.threads[i]) {
      if i == id {
        assert ThreadExplained(m, s'.threads[i]);
        ThreadSameRows(m, s', s'.threads[i]);
      } else {
        ThreadStaysExplained(s, s', s.threads[i]);
      }
    }
    forall c | c in s'.idem ensures RecordExplained(s', c) {
      if c in s.idem && m.idem[c] == s.idem[c] {
        assert RecordExplained(s, c);
        RecordStaysExplained(s, s', c);
      } else {
        assert RecordExplained(m, c);
      }
    }
  }

  lemma ThreadSameRows(m: State, s': State, t: Thread)
    requires ThreadExplained(m, t) && s'.auth == m.auth && s'.sends == m.sends
    ensures ThreadExplained(s', t)
  {
    if t.pc.Storing? {
      forall a | a in t.pc.todo ensures ActionOk(s', t, a) {
        assert ActionOk(m, t, a);
      }
    }
  }

  // The common case: no record is written.
  lemma PlainMove(s: State, m: State, id: nat, pc: Pc)
    requires Explained(s) && id in s.threads
    requires Later(s, m) && m.sends == s.sends && m.threads == s.threads && m.idem == s.idem
    requires MaySendEntry(s.threads[id].(pc := pc)) ==> MaySendEntry(s.threads[id])
    requires ThreadExplained(m, s.threads[id].(pc := pc))
    ensures Explained(Goto(m, id, pc))
  {
    MoveStaysExplained(s, m, id, pc);
  }

  lemma ClaimExplained(s: State, id: nat, o: Oracle)
    requires Explained(s) && id in s.threads && s.threads[id].job.EntryJob? && s.threads[id].pc.Claiming?
    ensures Explained(Claim(s, id, o))
  {
    var t := s.threads[id];
    var (db, r) := ClaimEntry(s.auth, t.grant, t.view, t.job.payload, o.now);
    ClaimRises(s.auth, t.grant, t.view, t.job.payload, o.now);
    assert Persists(s.idem, s.idem);
    PlainMove(s, s.(auth := db), id, if r.Ok? then Reserving(r.value) else DONE);
  }

  lemma ReserveExplained(s: State, id: nat)
    requires Inv(s) && Explained(s) && id in s.threads && s.threads[id].job.EntryJob? && s.threads[id].pc.Reserving?
    ensures Explained(Reserve(s, id))
  {
    var t := s.threads[id];
    var p := t.job.payload;
    var (db, r) := ReserveRecord(s.idem, p.intent.clientOrderId, PayloadHash(p), p.requestId, p, t.expected);
    assert Persists(s.idem, db) && Rises(s.auth, s.auth);
    MoveStaysExplained(s, s.(idem := db), id, if r.Ok? && r.value.1 && t.pc.claimed then Preparing else DONE);
  }

  lemma EpilogueExplained(s: State, t: Thread, out: SendOutcome)
    requires t.job.EntryJob?
    requires out.Refused? ==> NotAccepted(s.sends, ClientOrder(t))
    requires out.SentOk? ==> ClaimBacked(s, t) && AnsweredWith(s.sends, t.grant, ClientOrder(t), out.order)
    ensures ThreadExplained(s, t.(pc := Storing(EntryEpilogue(t.job.payload.requestId, out))))
  {
    var u := t.(pc := Storing(EntryEpilogue(t.job.payload.requestId, out)));
    assert t.job == u.job && t.grant == u.grant && t.view == u.view;
  }

  lemma UnsentIsNotAccepted(s: State, t: Thread)
    requires MaySendEntry(t) && Unsent(s.sends, t)
    ensures NotAccepted(s.sends, ClientOrder(t))
  {}

  lemma PrepareExplained(s: State, id: nat, o: Oracle)
    requires Inv(s) && Explained(s) && id in s.threads && s.threads[id].job.EntryJob? && s.threads[id].pc.Preparing?
    ensures Explained(Prepare(s, id, o))
  {
    var t := s.threads[id];
    assert Unsent(s.sends, t);
    UnsentIsNotAccepted(s, t);
    assert Persists(s.idem, s.idem) && Rises(s.auth, s.auth);
    var out := Refused(if o.refusal.Some? then o.refusal.value else UnsupportedOrder);
    EpilogueExplained(s, t, out);
    PlainMove(s, s, id, Prepare(s, id, o).threads[id].pc);
  }

  lemma ScopingExplained(s: State, id: nat)
    requires Explained(s) && id in s.threads
    ensures s.threads[id].pc.Scoping? ==> Explained(TakeScope(s, id))
    ensures s.threads[id].job.ExitJob? && s.threads[id].pc.Examining? ==> Explained(Examine(s, id))
  {
    var t := s.threads[id];
    assert ThreadExplained(s, t);
    assert Persists(s.idem, s.idem) && Rises(s.auth, s.auth);
    if t.pc.Scoping? {
      PlainMove(s, s, id, TakeScope(s, id).threads[id].pc);
    } else if t.job.ExitJob? && t.pc.Examining? {
      PlainMove(s, s, id, Examine(s, id).threads[id].pc);
    }
  }

  lemma LocateExplained(s: State, id: nat, o: Oracle)
    requires Explained(s) && id in s.threads && s.threads[id].pc.Locating?
    ensures Explained(Locate(s, id, o))
  {
    var t := s.threads[id];
    var pc := Locate(s, id, o).threads[id].pc;
    assert ThreadExplained(s, t);
    assert Persists(s.idem, s.idem) && Rises(s.auth, s.auth);
    assert pc.BindingOrder? ==> pc.scope == t.pc.scope && pc.order == o.order.value.ticket;
    assert Locate(s, id, o) == Goto(s, id, pc);
    PlainMove(s, s, id, pc);
  }

  lemma ExposeExplained(s: State, id: nat, o: Oracle)
    requires Explained(s) && id in s.threads && s.threads[id].job.ExitJob? && s.threads[id].pc.Exposing?
    ensures Explained(Expose(s, id, o))
  {
    assert Persists(s.idem, s.idem) && Rises(s.auth, s.auth);
    PlainMove(s, s, id, Expose(s, id, o).threads[id].pc);
  }

  lemma LookUpExplained(s: State, id: nat, o: Oracle)
    requires Explained(s) && id in s.threads && s.threads[id].job.RecoveryJob? && s.threads[id].pc.Looking?
    ensures Explained(LookUp(s, id, o))
  {
    assert Persists(s.idem, s.idem) && Rises(s.auth, s.auth);
    PlainMove(s, s, id, LookUp(s, id, o).threads[id].pc);
  }

  lemma TakeExitExplained(s: State, id: nat, o: Oracle)
    requires Explained(s) && id in s.threads && s.threads[id].job.ExitJob? && s.threads[id].pc.ReservingExit?
    ensures Explained(TakeExit(s, id, o))
  {
    var t := s.threads[id];
    var (db, r) := ReserveExit(s.auth, t.grant, t.view, t.job.op, t.job.target, o.now);
    ReserveExitRises(s.auth, t.grant, t.view, t.job.op, t.job.target, o.now);
    PlainMove(s, s.(auth := db), id, if r == Ok(None) then SendingExit(t.pc.x) else DONE);
  }

  lemma BindOrderExplained(s: State, id: nat)
    requires Inv(s) && Explained(s) && id in s.threads && s.threads[id].pc.BindingOrder?
    ensures Explained(BindLocated(s, id))
  {
    var t := s.threads[id];
    assert ThreadExplained(s, t) && ThreadOk(s, t) && Persists(s.idem, s.idem);
    var (db, r) := BindExposure(s.auth, t.grant, t.view, Some(t.pc.order), None);
    BindRises(s.auth, t.grant, t.view, Some(t.pc.order), None);
    PlainMove(s, s.(auth := db), id, if r.Ok? then Exposing(t.pc.scope, t.pc.order) else DONE);
  }

  lemma BindPositionExplained(s: State, id: nat)
    requires Explained(s) && id in s.threads && s.threads[id].pc.BindingPosition?
    ensures Explained(BindPosition(s, id))
  {
    var t := s.threads[id];
    assert Persists(s.idem, s.idem);
    var (db, r) := BindExposure(s.auth, t.grant, t.view, None, Some(t.pc.x.position));
    BindRises(s.auth, t.grant, t.view, None, Some(t.pc.x.position));
    PlainMove(s, s.(auth := db), id, if r.Ok? then ReservingExit(t.pc.x) else DONE);
  }

  // ---- Writing what is known ----

  /** Binding the accepted order is denied exactly when its number is not positive or another order is already bound. */
  lemma BindDeniedIff(s: State, id: nat, order: int)
    requires Inv(s) && id in s.threads && s.threads[id].job.EntryJob? && ClaimBacked(s, s.threads[id])
    requires s.threads[id].pc.Storing? && s.threads[id].pc.todo != [] && s.threads[id].pc.todo[0] == BindOrder(order)
    ensures Store(s, id).threads[id].pc in {Storing(BIND_FAILED), Storing(s.threads[id].pc.todo[1..])}
    ensures var bound := s.auth.grants[s.threads[id].grant].orderId;
            BindExposure(s.auth, s.threads[id].grant, s.threads[id].view, Some(order), None).1.Err?
            <==> order <= 0 || (bound.Some? && bound.value != order)
  {
    assert ThreadOk(s, s.threads[id]);
  }

  /** Undisturbed, a request whose order was accepted leaves its record failed exactly when binding that order is
      denied. */
  lemma AcceptedEndsFailedIff(s: State, id: nat, order: int, retcode: int)
    requires Inv(s) && id in s.threads && s.threads[id].job.EntryJob? && ClaimBacked(s, s.threads[id])
    requires s.threads[id].pc == Storing([FinishAs(Succeeded, Answered(order, retcode)), BindOrder(order)])
    ensures var t := s.threads[id]; var client := ClientOrder(t); var bound := s.auth.grants[t.grant].orderId;
            var end := Store(Store(Store(Store(s, id), id), id), id);
            && client in end.idem
            && (end.idem[client].state.Failed? <==> order <= 0 || (bound.Some? && bound.value != order))
            && (!end.idem[client].state.Failed?
                ==> end.idem[client].state.Succeeded? && end.auth.grants[t.grant].orderId == Some(order))
  {
    var t := s.threads[id];
    assert ThreadOk(s, t) && OwnsRecord(t);
    StoreKeepsInv(s, id);
    var s1 := AfterRecord(s, id, Succeeded, Answered(order, retcode));
    assert s1.auth == s.auth;
    BindDeniedIff(s1, id, order);
    BoundOrRecorded(s1, id, order);
  }

  // The end of the epilogue: the order is bound, or the record is rewritten.
  lemma BoundOrRecorded(s: State, id: nat, order: int)
    requires id in s.threads && s.threads[id].job.EntryJob? && s.threads[id].pc == Storing([BindOrder(order)])
    requires ClientOrder(s.threads[id]) in s.idem
    ensures var t := s.threads[id]; var client := ClientOrder(t);
            var (db, r) := BindExposure(s.auth, t.grant, t.view, Some(order), None);
            var end := Store(Store(Store(s, id), id), id);
            && client in end.idem
            && (r.Err? ==> end.idem[client].state.Failed?)
            && (r.Ok? ==> end.idem == s.idem && end.auth == db)
  {
    var s2 := Store(s, id);
    if s2.threads[id].pc == Storing(BIND_FAILED) {
      FailedBindIsRecorded(s2, id);
    }
  }

  lemma FailedBindIsRecorded(s: State, id: nat)
    requires id in s.threads && s.threads[id].job.EntryJob? && s.threads[id].pc == Storing(BIND_FAILED)
    requires ClientOrder(s.threads[id]) in s.idem
    ensures var end := Store(Store(s, id), id);
            ClientOrder(s.threads[id]) in end.idem && end.idem[ClientOrder(s.threads[id])].state.Failed?
  {
    var s3 := Store(s, id);
    assert s3.threads[id].pc.todo == [FinishAs(Failed, Errored(None))];
    var s4 := AfterRecord(s3, id, Failed, Errored(None));
  }

  // Writing a record leaves the rest of the epilogue to be done and the grants as they were.
  lemma AfterRecord(s: State, id: nat, state: RecordState, outcome: Outcome) returns (s': State)
    requires id in s.threads && s.threads[id].job.EntryJob? && s.threads[id].pc.Storing? && s.threads[id].pc != DONE
    requires s.threads[id].pc.todo[0] == FinishAs(state, outcome)
    requires ClientOrder(s.threads[id]) in s.idem
    ensures s' == Store(s, id) && s'.auth == s.auth && id in s'.threads
    ensures s'.threads[id] == s.threads[id].(pc := Storing(s.threads[id].pc.todo[1..]))
    ensures ClientOrder(s.threads[id]) in s'.idem && s'.idem[ClientOrder(s.threads[id])].state == state
  {
    s' := Store(s, id);
  }

  lemma OwnRecordIsNobodyElses(s: State, id: nat)
    requires Inv(s) && id in s.threads && OwnsRecord(s.threads[id])
    ensures forall i | i in s.threads && i != id && MaySendEntry(s.threads[i]) ::
              ClientOrder(s.threads[i]) != ClientOrder(s.threads[id])
  {
    forall i | i in s.threads && i != id && MaySendEntry(s.threads[i])
      ensures ClientOrder(s.threads[i]) != ClientOrder(s.threads[id])
    {
      assert Apart(s.threads[i], s.threads[id]);
    }
  }

  lemma RecordWriteExplained(s: State, id: nat)
    requires Inv(s) && Explained(s) && id in s.threads && s.threads[id].pc.Storing? && s.threads[id].pc != DONE
    requires s.threads[id].pc.todo[0].FinishAs?
    ensures Explained(Store(s, id))
  {
    var t := s.threads[id];
    var a := t.pc.todo[0];
    var rest := Storing(t.pc.todo[1..]);
    assert ThreadExplained(s, t) && ActionOk(s, t, a);
    assert Persists(s.idem, s.idem) && Rises(s.auth, s.auth);
    var m := if ClientOf(t.job).Some? then s.(idem := FinishRecord(s.idem, ClientOf(t.job).value, a.state, a.outcome))
      else s;
    if OwnsRecord(t) {
      OwnRecordIsNobodyElses(s, id);
    }
    assert Later(s, m);
    RestExplained(s, m, t);
    MoveStaysExplained(s, m, id, rest);
  }

  lemma RestExplained(s: State, m: State, t: Thread)
    requires ThreadExplained(s, t) && t.pc.Storing? && t.pc != DONE && Later(s, m) && m.sends == s.sends
    ensures ThreadExplained(m, t.(pc := Storing(t.pc.todo[1..])))
  {
    var u := t.(pc := Storing(t.pc.todo[1..]));
    forall x | x in u.pc.todo ensures ActionOk(m, u, x) {
      assert x in t.pc.todo && ActionOk(s, t, x);
      ActionStaysOk(s, m, t, x);
    }
  }

  lemma BindWriteExplained(s: State, id: nat)
    requires Inv(s) && Explained(s) && id in s.threads && s.threads[id].pc.Storing? && s.threads[id].pc != DONE
    requires s.threads[id].pc.todo[0].BindOrder?
    ensures Explained(Store(s, id))
  {
    var t := s.threads[id];
    var order := t.pc.todo[0].order;
    assert ThreadExplained(s, t) && ActionOk(s, t, t.pc.todo[0]) && ThreadOk(s, t) && Persists(s.idem, s.idem);
    var (db, r) := BindExposure(s.auth, t.grant, t.view, Some(order), None);
    var m := s.(auth := db);
    BindRises(s.auth, t.grant, t.view, Some(order), None);
    BindDeniedIff(s, id, order);
    if r.Ok? {
      RestExplained(s, m, t);
      PlainMove(s, m, id, Storing(t.pc.todo[1..]));
    } else {
      DeniedIsMisbound(s, t, order);
      PlainMove(s, m, id, Storing(BIND_FAILED));
    }
  }

  // An accepted order that is refused a place on its grant has a bad number or comes too late.
  lemma DeniedIsMisbound(s: State, t: Thread, order: int)
    requires t.job.EntryJob? && ClaimBacked(s, t) && AnsweredWith(s.sends, t.grant, ClientOrder(t), order)
    requires var bound := s.auth.grants[t.grant].orderId; order < 0 || (bound.Some? && bound.value != order)
    ensures Misbound(s.auth, s.sends, ClientOrder(t))
  {
    var x :| x in s.sends && EntryFor(x, ClientOrder(t)) && x.grant == t.grant && Accepting(x.reply)
      && x.reply.order == order;
    assert Unbindable(s.auth, x);
  }

  lemma DisableExplained(s: State, id: nat)
    requires Explained(s) && id in s.threads && s.threads[id].pc.Storing? && s.threads[id].pc != DONE
    requires s.threads[id].pc.todo[0].Disable?
    ensures Explained(Store(s, id))
  {
    var t := s.threads[id];
    var reason := t.pc.todo[0].reason;
    var m := s.(auth := DisableEntry(s.auth, t.grant, reason));
    assert ThreadExplained(s, t) && Persists(s.idem, s.idem);
    DisableRises(s.auth, t.grant, reason);
    RestExplained(s, m, t);
    PlainMove(s, m, id, Storing(t.pc.todo[1..]));
  }

  lemma FinishExitBindsNothing(db: AuthDb, key: ExitKey, exit: ExitState)
    ensures FinishExit(db, key, exit).grants.Keys == db.grants.Keys
    ensures forall g | g in db.grants :: FinishExit(db, key, exit).grants[g].orderId == db.grants[g].orderId
  {}

  lemma FinishExitExplained(s: State, id: nat)
    requires Explained(s) && id in s.threads && s.threads[id].pc.Storing? && s.threads[id].pc != DONE
    requires s.threads[id].pc.todo[0].FinishExitAs?
    ensures Explained(Store(s, id))
  {
    var t := s.threads[id];
    var exit := t.pc.todo[0].exit;
    assert ThreadExplained(s, t) && Persists(s.idem, s.idem) && Rises(s.auth, s.auth);
    if t.job.ExitJob? && !exit.ExitPending? {
      var key := ExitKey(t.grant, t.job.op, t.job.target);
      var m := s.(auth := FinishExit(s.auth, key, exit));
      FinishExitRises(s.auth, key, exit);
      FinishExitBindsNothing(s.auth, key, exit);
      RestExplained(s, m, t);
      PlainMove(s, m, id, Storing(t.pc.todo[1..]));
    } else {
      RestExplained(s, s, t);
      PlainMove(s, s, id, Storing(t.pc.todo[1..]));
    }
  }

  // ---- Sending ----

  // A send for another client order changes nothing that is said about this one.
  lemma UnrelatedSend(sends: seq<Send>, x: Send, client: string)
    requires !EntryFor(x, client)
    ensures NotAccepted(sends, client) ==> NotAccepted(sends + [x], client)
    ensures forall auth :: Misbound(auth, sends, client) ==> Misbound(auth, sends + [x], client)
    ensures forall g, k :: AnsweredWith(sends, g, client, k) ==> AnsweredWith(sends + [x], g, client, k)
  {
    forall auth | Misbound(auth, sends, client) ensures Misbound(auth, sends + [x], client) {
      var y :| y in sends && EntryFor(y, client) && Unbindable(auth, y);
      assert y in sends + [x];
    }
    forall g, k | AnsweredWith(sends, g, client, k) ensures AnsweredWith(sends + [x], g, client, k) {
      var y :| y in sends && EntryFor(y, client) && y.grant == g && Accepting(y.reply) && y.reply.order == k;
      assert y in sends + [x];
    }
  }

  // The send's client order was not ticketed, answered or closed before, so nothing said of another one changes.
  predicate NewlySent(s: State, x: Send) {
    x.op.EntrySend? ==> forall y | y in s.sends :: !EntryFor(y, x.clientOrderId)
  }

  lemma OtherThreadStaysExplained(s: State, s': State, sender: Thread, t: Thread, x: Send)
    requires s'.sends == s.sends + [x] && s'.auth == s.auth && NewlySent(s, x)
    requires ThreadExplained(s, t) && Apart(t, sender)
    requires x.op.EntrySend? ==> MaySendEntry(sender) && x.clientOrderId == ClientOrder(sender)
    ensures ThreadExplained(s', t)
  {
    if t.pc.Storing? {
      forall a | a in t.pc.todo ensures ActionOk(s', t, a) {
        assert ActionOk(s, t, a);
        if t.job.EntryJob? {
          assert OwnsRecord(t);
          UnrelatedSend(s.sends, x, ClientOrder(t));
        }
      }
    }
  }

  lemma SendStaysExplained(s: State, s': State, id: nat, x: Send)
    requires Inv(s) && Inv(s') && Explained(s) && id in s.threads && id in s'.threads
    requires s'.sends == s.sends + [x] && s'.auth == s.auth && s'.idem == s.idem
    requires s'.threads == s.threads[id := s'.threads[id]] && s'.threads[id].pc.Storing?
    requires ThreadExplained(s', s'.threads[id])
    requires x.op.EntrySend? ==> MaySendEntry(s.threads[id]) && x.clientOrderId == ClientOrder(s.threads[id])
    ensures Explained(s')
  {
    var sender := s.threads[id];
    assert Unsent(s.sends, sender) && ThreadOk(s, sender);
    forall i | i in s'.threads ensures ThreadExplained(s', s'.threads[i]) {
      if i != id {
        assert ThreadExplained(s, s.threads[i]) && Apart(s.threads[i], sender);
        OtherThreadStaysExplained(s, s', sender, s.threads[i], x);
      }
    }
    forall c | c in s'.idem ensures RecordExplained(s', c) {
      assert RecordExplained(s, c);
      if !EntryFor(x, c) {
        UnrelatedSend(s.sends, x, c);
      }
    }
  }

  // What the report of an entry send says, in terms of the log it leaves.
  lemma EntryReportExplained(s: State, s': State, id: nat, o: Oracle)
    requires Inv(s) && id in s.threads && s.threads[id].job.EntryJob? && s.threads[id].pc.Sending?
    requires s' == SendEntry(s, id, o)
    ensures var t := s.threads[id]; var report := EntryReport(s, t, o);
            && s'.threads == s.threads[id := t.(pc := Storing(EntryEpilogue(t.job.payload.requestId, report.outcome)))]
            && s'.auth == s.auth && s'.idem == s.idem && s'.epoch == s.epoch && s'.client == report.client
            && (if report.invoked
                then |s'.sends| == |s.sends| + 1 && s'.sends == s.sends + [s'.sends[|s.sends|]]
                     && EntryFor(s'.sends[|s.sends|], ClientOrder(t)) && s'.sends[|s.sends|].reply == o.script.reply
                else s'.sends == s.sends)
            && (report.outcome.Refused? ==> NotAccepted(s'.sends, ClientOrder(t)))
            && (report.outcome.SentOk? ==> ClaimBacked(s', t)
                                           && AnsweredWith(s'.sends, t.grant, ClientOrder(t), report.outcome.order))
  {
    var t := s.threads[id];
    var p := t.job.payload;
    var report := EntryReport(s, t, o);
    var final := AuthorizeEntry(s.auth, t.grant, t.view, p, o.now);
    assert ThreadOk(s, t) && Unsent(s.sends, t);
    RefusedMeansNotAccepted(s.client, t.expected, EntryGate(o, p.intent.volume.value),
                            if final.Err? then Some(Denied(final.error)) else None, o.script);
    UnsentIsNotAccepted(s, t);
    if report.invoked {
      EntryReportOnGrant(s, id, o);
      var x := s'.sends[|s.sends|];
      assert x in s'.sends && x.reply == o.script.reply && EntryFor(x, ClientOrder(t));
    } else {
      assert s.sends + [] == s.sends;
    }
  }

  lemma EntrySendExplained(s: State, id: nat, o: Oracle)
    requires Inv(s) && Explained(s) && id in s.threads && s.threads[id].job.EntryJob? && s.threads[id].pc.Sending?
    ensures Explained(SendEntry(s, id, o))
  {
    var t := s.threads[id];
    var s' := SendEntry(s, id, o);
    var report := EntryReport(s, t, o);
    SendEntryKeepsInv(s, id, o);
    EntryReportExplained(s, s', id, o);
    EpilogueExplained(s', t, report.outcome);
    if report.invoked {
      SendStaysExplained(s, s', id, s'.sends[|s.sends|]);
    } else {
      var m := s.(client := report.client);
      assert Later(s, m) by {
        assert Persists(s.idem, s.idem) && Rises(s.auth, s.auth);
      }
      ThreadSameRows(s', m, s'.threads[id]);
      PlainMove(s, m, id, s'.threads[id].pc);
      assert s' == Goto(m, id, s'.threads[id].pc);
    }
  }

  lemma ExitSendShape(s: State, s': State, id: nat, o: Oracle)
    requires id in s.threads && HasExit(s.threads[id]) && s' == SendExit(s, id, o)
    ensures s'.auth == s.auth && s'.idem == s.idem && s'.epoch == s.epoch
    ensures id in s'.threads && s'.threads == s.threads[id := s'.threads[id]]
    ensures s'.threads[id].pc.Storing? && s'.threads[id] == s.threads[id].(pc := s'.threads[id].pc)
    ensures forall a | a in s'.threads[id].pc.todo :: a.FinishExitAs? || a.Disable?
    ensures s'.sends == s.sends
            || (|s'.sends| == |s.sends| + 1 && s'.sends == s.sends + [s'.sends[|s.sends|]]
                && !s'.sends[|s.sends|].op.EntrySend?)
  {
    assert s.sends + [] == s.sends;
  }

  lemma ExitSendExplained(s: State, id: nat, o: Oracle)
    requires Inv(s) && Explained(s) && id in s.threads && HasExit(s.threads[id])
    ensures Explained(SendExit(s, id, o))
  {
    var s' := SendExit(s, id, o);
    ExitSendShape(s, s', id, o);
    SendExitKeepsInv(s, id, o);
    if s'.sends == s.sends {
      SilentExitExplained(s, s', id);
    } else {
      SendStaysExplained(s, s', id, s'.sends[|s.sends|]);
    }
  }

  lemma SilentExitExplained(s: State, s': State, id: nat)
    requires Inv(s) && Explained(s) && id in s.threads && id in s'.threads && HasExit(s.threads[id])
    requires s'.auth == s.auth && s'.idem == s.idem && s'.epoch == s.epoch && s'.sends == s.sends
    requires s'.threads == s.threads[id := s.threads[id].(pc := s'.threads[id].pc)] && s'.threads[id].pc.Storing?
    requires forall a | a in s'.threads[id].pc.todo :: a.FinishExitAs? || a.Disable?
    ensures Explained(s')
  {
    var m := s.(client := s'.client, deals := s'.deals, config := s'.config);
    assert Persists(s.idem, s.idem) && Rises(s.auth, s.auth);
    PlainMove(s, m, id, s'.threads[id].pc);
    assert s' == Goto(m, id, s'.threads[id].pc);
  }

  // ---- Runs ----

  lemma AdvanceExplained(s: State, id: nat, o: Oracle)
    requires Inv(s) && Explained(s) && id in s.threads
    ensures Explained(Advance(s, id, o))
  {
    var t := s.threads[id];
    if t.pc.Storing? {
      if t.pc != DONE {
        if t.pc.todo[0].FinishAs? { RecordWriteExplained(s, id); }
        else if t.pc.todo[0].BindOrder? { BindWriteExplained(s, id); }
        else if t.pc.todo[0].Disable? { DisableExplained(s, id); }
        else { FinishExitExplained(s, id); }
      }
    } else if t.pc.Claiming? {
      if t.job.EntryJob? { ClaimExplained(s, id, o); }
    } else if t.pc.Reserving? {
      if t.job.EntryJob? { ReserveExplained(s, id); }
    } else if t.pc.Preparing? {
      if t.job.EntryJob? { PrepareExplained(s, id, o); }
    } else if t.pc.Sending? {
      if t.job.EntryJob? { EntrySendExplained(s, id, o); }
    } else if t.pc.Locating? {
      LocateExplained(s, id, o);
    } else if t.pc.Scoping? || t.pc.Examining? {
      if t.pc.Scoping? || t.job.ExitJob? { ScopingExplained(s, id); }
    } else if t.pc.BindingOrder? || t.pc.BindingPosition? {
      if t.pc.BindingOrder? { BindOrderExplained(s, id); } else { BindPositionExplained(s, id); }
    } else if t.pc.SendingExit? {
      if t.job.ExitJob? { ExitSendExplained(s, id, o); }
    } else if t.pc.Exposing? {
      if t.job.ExitJob? { ExposeExplained(s, id, o); }
    } else if t.pc.Looking? {
      if t.job.RecoveryJob? { LookUpExplained(s, id, o); }
    } else if t.pc.ReservingExit? {
      if t.job.ExitJob? { TakeExitExplained(s, id, o); }
    }
  }

  // The environment neither writes records nor binds orders; new threads know nothing and halted ones forget.
  lemma SameRowsExplained(s: State, s': State)
    requires Explained(s) && Later(s, s') && s'.sends == s.sends && s'.idem == s.idem
    requires forall i | i in s'.threads ::
               || (i in s.threads && s'.threads[i] == s.threads[i])
               || (!MaySendEntry(s'.threads[i]) && s'.threads[i].pc in {DONE, Claiming, Scoping})
               || (!MaySendEntry(s'.threads[i]) && s'.threads[i].pc.Looking?)
    ensures Explained(s')
  {
    forall i | i in s'.threads ensures ThreadExplained(s', s'.threads[i]) {
      if i in s.threads && s'.threads[i] == s.threads[i] {
        ThreadStaysExplained(s, s', s.threads[i]);
      }
    }
    forall c | c in s'.idem ensures RecordExplained(s', c) {
      assert RecordExplained(s, c);
      RecordStaysExplained(s, s', c);
    }
  }

  lemma StartOrStopExplained(s: State, e: Event)
    requires Inv(s) && Explained(s) && (e.Crash? || e.BeginEntry? || e.BeginExit? || e.BeginRecovery?)
    ensures Explained(Step(s, e))
  {
    StartOrStopKeepsInv(s, e);
    if e.Crash? {
      CrashExplained(s, e);
    } else {
      BeginExplained(s, e);
    }
  }

  lemma CrashExplained(s: State, e: Event)
    requires Explained(s) && e.Crash? && Later(s, Step(s, e))
    ensures Explained(Step(s, e))
  {
    SameRowsExplained(s, Step(s, e));
  }

  lemma BeginExplained(s: State, e: Event)
    requires Explained(s) && (e.BeginEntry? || e.BeginExit? || e.BeginRecovery?) && Later(s, Step(s, e))
    ensures Explained(Step(s, e))
  {
    var s' := Step(s, e);
    assert s'.auth == s.auth && s'.idem == s.idem && s'.sends == s.sends;
    SameRowsExplained(s, s');
  }

  lemma EnvironmentExplained(s: State, e: Event)
    requires Inv(s) && Explained(s) && (e.ProvisionGrant? || e.KillEntry? || e.UseClient? || e.Fill? || e.ForeignDeal?)
    ensures Explained(Step(s, e))
  {
    EnvironmentKeepsInv(s, e);
    if e.ProvisionGrant? {
      SameRowsExplained(s, s.(auth := Provision(s.auth, e.artifact).0));
    } else if e.KillEntry? {
      SameRowsExplained(s, s.(auth := DisableEntry(s.auth, e.grant, e.reason)));
    } else {
      SameRowsExplained(s, Step(s, e));
    }
  }

  lemma StepExplained(s: State, e: Event)
    requires Inv(s) && Explained(s)
    ensures Explained(Step(s, e))
  {
    if e.StepThread? {
      if e.id in s.threads {
        AdvanceExplained(s, e.id, e.oracle);
      }
    } else if e.Crash? || e.BeginEntry? || e.BeginExit? || e.BeginRecovery? {
      StartOrStopExplained(s, e);
    } else {
      EnvironmentExplained(s, e);
    }
  }

  lemma {:induction false} RunExplained(c: Config, events: seq<Event>)
    ensures Inv(RunEvents(Initial(c), events)) && Explained(RunEvents(Initial(c), events))
  {
    RunKeepsInv(c, events);
    if events != [] {
      var before := events[..|events| - 1];
      RunExplained(c, before);
      StepExplained(RunEvents(Initial(c), before), events[|events| - 1]);
    }
  }

  /** In every run, a record left failed by a lookup means that a rejected order was observed; one left failed by its
      own request means that nothing was sent, that the broker rejected what was sent, or that the order it accepted has
      a negative number or came to a grant already bound to another order. */
  lemma FailedMeansUnacceptedOrMisbound(c: Config, events: seq<Event>, client: string)
    ensures var s := RunEvents(Initial(c), events);
            client in s.idem && s.idem[client].state.Failed? ==>
              var outcome := s.idem[client].outcome;
              && outcome.Some?
              && (outcome.value.Recovered? ==> outcome.value.status.Rejected?)
              && (!outcome.value.Recovered? ==>
                    || (forall x | x in s.sends && EntryFor(x, client) :: Rejecting(x.reply))
                    || (exists x ::
                        x in s.sends && EntryFor(x, client) && Accepting(x.reply) && x.grant in s.auth.grants
                          && (x.reply.order < 0
                              || s.auth.grants[x.grant].orderId !in {None, Some(x.reply.order)})))
  {
    RunExplained(c, events);
    var s := RunEvents(Initial(c), events);
    assert RecordExplained(s, client);
    if x :| x in s.sends && EntryFor(x, client) && Unbindable(s.auth, x) {
      assert SendOk(s.auth, s.idem, x);
    }
  }
}
