/** Failed records when the broker's numbers can be trusted: the only orders bound are those that were sent. */
module ExecutionTickets {
  import opened Wrappers
  import opened Authorization
  import opened Execution
  import opened ExecutionSafety
  import opened ExecutionRecords

  // The ticket can be the one this client order was sent for.
  predicate Ticketed(sends: seq<Send>, client: string, ticket: int) {
    && (exists x :: x in sends && EntryFor(x, client))
    && (forall x | x in sends && EntryFor(x, client) && Accepting(x.reply) :: x.reply.order == ticket)
  }

  predicate GrantTicketed(sends: seq<Send>, g: Grant) {
    g.orderId.Some? ==> Ticketed(sends, g.artifact.clientOrderId, g.orderId.value)
  }

  predicate ThreadTicketed(sends: seq<Send>, t: Thread) {
    t.pc.BindingOrder? ==> Ticketed(sends, t.pc.scope.artifact.clientOrderId, t.pc.order)
  }

  predicate NumberOk(x: Send) { x.op.EntrySend? && Accepting(x.reply) ==> 0 <= x.reply.order }

  predicate Tickets(s: State) {
    && (forall x | x in s.sends :: NumberOk(x))
    && (forall i | i in s.threads :: ThreadTicketed(s.sends, s.threads[i]))
    && (forall g | g in s.auth.grants :: GrantTicketed(s.sends, s.auth.grants[g]))
  }

  // The assumption: accepted orders carry no negative number, and a lookup by client order finds the order that was
  // sent.
  predicate Honest(s: State, e: Event) {
    e.StepThread? ==>
      && (Accepting(e.oracle.script.reply) ==> 0 <= e.oracle.script.reply.order)
      && (e.id in s.threads && s.threads[e.id].pc.Locating? && e.oracle.order.Some? ==>
            Ticketed(s.sends, s.threads[e.id].pc.scope.artifact.clientOrderId, e.oracle.order.value.ticket))
  }

  // ---- Steps that send nothing ----

  // Grants keep the orders they had; new ones have none.
  predicate SameOrders(auth: AuthDb, after: AuthDb) {
    forall g | g in after.grants ::
      if g in auth.grants then
        after.grants[g].orderId == auth.grants[g].orderId && after.grants[g].artifact == auth.grants[g].artifact
      else after.grants[g].orderId.None?
  }

  lemma SameOrdersKeepTickets(s: State, s': State)
    requires Tickets(s) && SameOrders(s.auth, s'.auth) && s'.sends == s.sends
    requires forall i | i in s'.threads ::
               (i in s.threads && s'.threads[i] == s.threads[i]) || ThreadTicketed(s'.sends, s'.threads[i])
    ensures Tickets(s')
  {
    forall g | g in s'.auth.grants ensures GrantTicketed(s'.sends, s'.auth.grants[g]) {
      assert g in s.auth.grants ==> GrantTicketed(s.sends, s.auth.grants[g]);
    }
    forall i | i in s'.threads ensures ThreadTicketed(s'.sends, s'.threads[i]) {
      assert i in s.threads ==> ThreadTicketed(s.sends, s.threads[i]);
    }
  }

  lemma ClaimKeepsTickets(s: State, id: nat, o: Oracle)
    requires Tickets(s) && id in s.threads && s.threads[id].job.EntryJob?
    ensures Tickets(Claim(s, id, o))
  {
    SameOrdersKeepTickets(s, Claim(s, id, o));
  }

  lemma ReserveKeepsTickets(s: State, id: nat)
    requires Tickets(s) && id in s.threads && s.threads[id].job.EntryJob? && s.threads[id].pc.Reserving?
    ensures Tickets(Reserve(s, id))
  {
    SameOrdersKeepTickets(s, Reserve(s, id));
  }

  lemma PrepareKeepsTickets(s: State, id: nat, o: Oracle)
    requires Tickets(s) && id in s.threads && s.threads[id].job.EntryJob?
    ensures Tickets(Prepare(s, id, o))
  {
    SameOrdersKeepTickets(s, Prepare(s, id, o));
  }

  lemma ScopeStepsKeepTickets(s: State, id: nat)
    requires Tickets(s) && id in s.threads
    ensures Tickets(TakeScope(s, id))
    ensures s.threads[id].job.ExitJob? && s.threads[id].pc.Examining? ==> Tickets(Examine(s, id))
    ensures s.threads[id].pc.BindingPosition? ==> Tickets(BindPosition(s, id))
  {
    SameOrdersKeepTickets(s, TakeScope(s, id));
    if s.threads[id].job.ExitJob? && s.threads[id].pc.Examining? {
      SameOrdersKeepTickets(s, Examine(s, id));
    }
    if s.threads[id].pc.BindingPosition? {
      SameOrdersKeepTickets(s, BindPosition(s, id));
    }
  }

  lemma ExitStepsKeepTickets(s: State, id: nat, o: Oracle)
    requires Tickets(s) && id in s.threads
    ensures s.threads[id].job.ExitJob? && s.threads[id].pc.Exposing? ==> Tickets(Expose(s, id, o))
    ensures s.threads[id].pc.Looking? ==> Tickets(LookUp(s, id, o))
    ensures s.threads[id].job.ExitJob? && s.threads[id].pc.ReservingExit? ==> Tickets(TakeExit(s, id, o))
  {
    if s.threads[id].job.ExitJob? && s.threads[id].pc.Exposing? {
      SameOrdersKeepTickets(s, Expose(s, id, o));
    }
    if s.threads[id].pc.Looking? {
      SameOrdersKeepTickets(s, LookUp(s, id, o));
    }
    if s.threads[id].job.ExitJob? && s.threads[id].pc.ReservingExit? {
      SameOrdersKeepTickets(s, TakeExit(s, id, o));
    }
  }

  lemma ClosingRowsKeepsOrders(auth: AuthDb, grant: string, reason: string, key: ExitKey, exit: ExitState)
    ensures SameOrders(auth, DisableEntry(auth, grant, reason)) && SameOrders(auth, FinishExit(auth, key, exit))
  {}

  lemma WritesKeepTickets(s: State, id: nat)
    requires Tickets(s) && id in s.threads && s.threads[id].pc.Storing? && s.threads[id].pc != DONE
    requires !s.threads[id].pc.todo[0].BindOrder?
    ensures Tickets(Store(s, id))
  {
    var t := s.threads[id];
    var a := t.pc.todo[0];
    if a.Disable? {
      ClosingRowsKeepsOrders(s.auth, t.grant, a.reason, ExitKey("", CloseExit, 0), ExitSucceeded);
    } else if a.FinishExitAs? && t.job.ExitJob? {
      ClosingRowsKeepsOrders(s.auth, "", "", ExitKey(t.grant, t.job.op, t.job.target), a.exit);
    }
    SameOrdersKeepTickets(s, Store(s, id));
  }

  lemma LocateKeepsTickets(s: State, id: nat, o: Oracle)
    requires Tickets(s) && id in s.threads && s.threads[id].pc.Locating? && Honest(s, StepThread(id, o))
    ensures Tickets(Locate(s, id, o))
  {
    var s' := Locate(s, id, o);
    assert s'.threads[id].pc.BindingOrder? ==> s'.threads[id].pc.scope == s.threads[id].pc.scope
                                               && s'.threads[id].pc.order == o.order.value.ticket;
    SameOrdersKeepTickets(s, s');
  }

  // ---- Binding an order ----

  lemma BindKeepsTickets(s: State, id: nat, order: int, pc: Pc)
    requires Tickets(s) && id in s.threads && !pc.BindingOrder?
    requires var t := s.threads[id];
             t.grant in s.auth.grants ==> Ticketed(s.sends, s.auth.grants[t.grant].artifact.clientOrderId, order)
    ensures var t := s.threads[id];
            Tickets(Goto(s.(auth := BindExposure(s.auth, t.grant, t.view, Some(order), None).0), id, pc))
  {
    var t := s.threads[id];
    var s' := Goto(s.(auth := BindExposure(s.auth, t.grant, t.view, Some(order), None).0), id, pc);
    forall g | g in s'.auth.grants ensures GrantTicketed(s'.sends, s'.auth.grants[g]) {
      assert g in s.auth.grants && GrantTicketed(s.sends, s.auth.grants[g]);
    }
    forall i | i in s'.threads ensures ThreadTicketed(s'.sends, s'.threads[i]) {
      assert ThreadTicketed(s.sends, s.threads[i]);
    }
  }

  lemma LocatedKeepsTickets(s: State, id: nat)
    requires Inv(s) && Tickets(s) && id in s.threads && s.threads[id].pc.BindingOrder?
    ensures Tickets(BindLocated(s, id))
  {
    var t := s.threads[id];
    assert ThreadTicketed(s.sends, t) && ThreadOk(s, t);
    var r := BindExposure(s.auth, t.grant, t.view, Some(t.pc.order), None).1;
    BindKeepsTickets(s, id, t.pc.order, if r.Ok? then Exposing(t.pc.scope, t.pc.order) else DONE);
  }

  // There is one entry for the client order, so the answer it got is its ticket.
  lemma AnswerIsTicket(s: State, grant: string, client: string, order: int)
    requires Inv(s) && AnsweredWith(s.sends, grant, client, order)
    ensures Ticketed(s.sends, client, order)
  {
    var x :| x in s.sends && EntryFor(x, client) && x.grant == grant && Accepting(x.reply) && x.reply.order == order;
    forall y | y in s.sends && EntryFor(y, client) && Accepting(y.reply) ensures y.reply.order == order {
      var i :| 0 <= i < |s.sends| && s.sends[i] == x;
      var j :| 0 <= j < |s.sends| && s.sends[j] == y;
      assert !SendsApart(s.sends[i], s.sends[j]) && !SendsApart(s.sends[j], s.sends[i]);
      assert i == j;
    }
  }

  lemma BindWriteKeepsTickets(s: State, id: nat)
    requires Inv(s) && Explained(s) && Tickets(s) && id in s.threads && s.threads[id].pc.Storing?
    requires s.threads[id].pc != DONE
    requires s.threads[id].pc.todo[0].BindOrder?
    ensures Tickets(Store(s, id))
  {
    var t := s.threads[id];
    var order := t.pc.todo[0].order;
    assert ThreadExplained(s, t) && ActionOk(s, t, t.pc.todo[0]);
    AnswerIsTicket(s, t.grant, ClientOrder(t), order);
    var r := BindExposure(s.auth, t.grant, t.view, Some(order), None).1;
    BindKeepsTickets(s, id, order, if r.Ok? then Storing(t.pc.todo[1..]) else Storing(BIND_FAILED));
  }

  // ---- Sending ----

  lemma TicketStays(sends: seq<Send>, x: Send, client: string, ticket: int)
    requires Ticketed(sends, client, ticket) && !EntryFor(x, client)
    ensures Ticketed(sends + [x], client, ticket)
  {
    var y :| y in sends && EntryFor(y, client);
    assert y in sends + [x];
  }

  lemma SendKeepsTickets(s: State, s': State, id: nat, x: Send)
    requires Tickets(s) && s'.sends == s.sends + [x] && s'.auth == s.auth && NumberOk(x) && NewlySent(s, x)
    requires id in s'.threads && s'.threads == s.threads[id := s'.threads[id]] && s'.threads[id].pc.Storing?
    ensures Tickets(s')
  {
    forall g | g in s'.auth.grants ensures GrantTicketed(s'.sends, s'.auth.grants[g]) {
      assert GrantTicketed(s.sends, s.auth.grants[g]);
      var client := s.auth.grants[g].artifact.clientOrderId;
      if s.auth.grants[g].orderId.Some? && !EntryFor(x, client) {
        TicketStays(s.sends, x, client, s.auth.grants[g].orderId.value);
      }
    }
    forall i | i in s'.threads ensures ThreadTicketed(s'.sends, s'.threads[i]) {
      if i != id && s.threads[i].pc.BindingOrder? {
        assert ThreadTicketed(s.sends, s.threads[i]);
        var client := s.threads[i].pc.scope.artifact.clientOrderId;
        if !EntryFor(x, client) {
          TicketStays(s.sends, x, client, s.threads[i].pc.order);
        }
      }
    }
  }

  lemma EntrySendKeepsTickets(s: State, id: nat, o: Oracle)
    requires Inv(s) && Tickets(s) && id in s.threads && s.threads[id].job.EntryJob? && s.threads[id].pc.Sending?
    requires Honest(s, StepThread(id, o))
    ensures Tickets(SendEntry(s, id, o))
  {
    var s' := SendEntry(s, id, o);
    EntryReportExplained(s, s', id, o);
    assert Unsent(s.sends, s.threads[id]);
    if EntryReport(s, s.threads[id], o).invoked {
      SendKeepsTickets(s, s', id, s'.sends[|s.sends|]);
    } else {
      SameOrdersKeepTickets(s, s');
    }
  }

  lemma ExitSendKeepsTickets(s: State, id: nat, o: Oracle)
    requires Tickets(s) && id in s.threads && HasExit(s.threads[id])
    ensures Tickets(SendExit(s, id, o))
  {
    var s' := SendExit(s, id, o);
    ExitSendShape(s, s', id, o);
    if s'.sends == s.sends {
      SameOrdersKeepTickets(s, s');
    } else {
      SendKeepsTickets(s, s', id, s'.sends[|s.sends|]);
    }
  }

  // ---- Runs ----

  lemma AdvanceKeepsTickets(s: State, id: nat, o: Oracle)
    requires Inv(s) && Explained(s) && Tickets(s) && id in s.threads && Honest(s, StepThread(id, o))
    ensures Tickets(Advance(s, id, o))
  {
    var t := s.threads[id];
    if t.pc.Storing? {
      if t.pc != DONE {
        if t.pc.todo[0].BindOrder? { BindWriteKeepsTickets(s, id); } else { WritesKeepTickets(s, id); }
      }
    } else if t.pc.Claiming? {
      if t.job.EntryJob? { ClaimKeepsTickets(s, id, o); }
    } else if t.pc.Reserving? {
      if t.job.EntryJob? { ReserveKeepsTickets(s, id); }
    } else if t.pc.Preparing? {
      if t.job.EntryJob? { PrepareKeepsTickets(s, id, o); }
    } else if t.pc.Sending? {
      if t.job.EntryJob? { EntrySendKeepsTickets(s, id, o); }
    } else if t.pc.Locating? {
      LocateKeepsTickets(s, id, o);
    } else if t.pc.BindingOrder? {
      LocatedKeepsTickets(s, id);
    } else if t.pc.Scoping? || t.pc.Examining? || t.pc.BindingPosition? {
      ScopeStepsKeepTickets(s, id);
    } else if t.pc.SendingExit? {
      if t.job.ExitJob? { ExitSendKeepsTickets(s, id, o); }
    } else {
      ExitStepsKeepTickets(s, id, o);
    }
  }

  lemma OthersKeepTickets(s: State, e: Event)
    requires Tickets(s) && !e.StepThread?
    ensures Tickets(Step(s, e))
  {
    SameOrdersKeepTickets(s, Step(s, e));
  }

  predicate HonestRun(c: Config, events: seq<Event>) {
    forall k | 0 <= k < |events| :: Honest(RunEvents(Initial(c), events[..k]), events[k])
  }

  lemma {:induction false} RunKeepsTickets(c: Config, events: seq<Event>)
    requires HonestRun(c, events)
    ensures Tickets(RunEvents(Initial(c), events))
  {
    if events != [] {
      var before, e := events[..|events| - 1], events[|events| - 1];
      forall k | 0 <= k < |before| ensures Honest(RunEvents(Initial(c), before[..k]), before[k]) {
        assert before[..k] == events[..k];
      }
      RunKeepsTickets(c, before);
      RunExplained(c, before);
      var s := RunEvents(Initial(c), before);
      if e.StepThread? {
        if e.id in s.threads {
          AdvanceKeepsTickets(s, e.id, e.oracle);
        }
      } else {
        OthersKeepTickets(s, e);
      }
    }
  }

  /** Then nothing is misbound: a record left failed by its request means nothing was sent or the broker rejected it,
      and one left failed by a lookup means a rejected order was observed. */
  lemma FailedMeansNotAccepted(c: Config, events: seq<Event>, client: string)
    requires HonestRun(c, events)
    ensures var s := RunEvents(Initial(c), events);
            client in s.idem && s.idem[client].state.Failed? ==>
              var outcome := s.idem[client].outcome;
              && outcome.Some?
              && (outcome.value.Recovered? ==> outcome.value.status.Rejected?)
              && (!outcome.value.Recovered? ==> NotAccepted(s.sends, client))
  {
    RunExplained(c, events);
    RunKeepsTickets(c, events);
    var s := RunEvents(Initial(c), events);
    assert RecordExplained(s, client);
    if x :| x in s.sends && EntryFor(x, client) && Unbindable(s.auth, x) {
      assert false;
    }
  }
}
