/** The request handlers as they are written: straight-line code over the mutable stores, the client and the broker,
    with the rest of the system running between any two of its transactions. The handler that places an order is proved
    to be a run of the machine, so every theorem about runs holds of it; the scoped exits are steps of the machine
    only. */
module ExecutionApi {
  import opened Wrappers
  import opened Client
  import opened Orders
  import opened Authorization
  import opened Idempotency
  import opened Adapter
  import opened Execution

  // Events of everybody else: they never take a step of the handler's own thread.
  predicate Foreign(events: seq<Event>, id: nat) {
    forall e | e in events :: !(e.StepThread? && e.id == id)
  }

  predicate SameOther(s: State, s': State, id: nat) {
    s'.epoch == s.epoch && id in s.threads && id in s'.threads && s'.threads[id] == s.threads[id]
  }

  lemma EntryTouchesOne(s: State, i: nat, o: Oracle, id: nat)
    requires i in s.threads && id in s.threads && i != id && s.threads[i].job.EntryJob?
    ensures SameOther(s, Claim(s, i, o), id) && SameOther(s, Prepare(s, i, o), id)
    ensures SameOther(s, SendEntry(s, i, o), id)
    ensures s.threads[i].pc.Reserving? ==> SameOther(s, Execution.Reserve(s, i), id)
  {}

  lemma ExitTouchesOne(s: State, i: nat, o: Oracle, id: nat)
    requires i in s.threads && id in s.threads && i != id && s.threads[i].job.ExitJob?
    ensures s.threads[i].pc.Examining? ==> SameOther(s, Examine(s, i), id)
    ensures s.threads[i].pc.Exposing? ==> SameOther(s, Expose(s, i, o), id)
    ensures s.threads[i].pc.ReservingExit? ==> SameOther(s, TakeExit(s, i, o), id)
    ensures s.threads[i].pc.SendingExit? ==> SameOther(s, SendExit(s, i, o), id)
  {}

  lemma AnyTouchesOne(s: State, i: nat, o: Oracle, id: nat)
    requires i in s.threads && id in s.threads && i != id
    ensures SameOther(s, TakeScope(s, i), id)
    ensures s.threads[i].pc.Locating? ==> SameOther(s, Locate(s, i, o), id)
    ensures s.threads[i].pc.BindingOrder? ==> SameOther(s, BindLocated(s, i), id)
    ensures s.threads[i].pc.BindingPosition? ==> SameOther(s, BindPosition(s, i), id)
    ensures s.threads[i].pc.Looking? ==> SameOther(s, LookUp(s, i, o), id)
    ensures s.threads[i].pc.Storing? ==> SameOther(s, Store(s, i), id)
  {}

  lemma AdvanceTouchesOne(s: State, i: nat, o: Oracle, id: nat)
    requires i in s.threads && id in s.threads && i != id
    ensures SameOther(s, Advance(s, i, o), id)
  {
    AnyTouchesOne(s, i, o, id);
    if s.threads[i].job.EntryJob? {
      EntryTouchesOne(s, i, o, id);
    } else if s.threads[i].job.ExitJob? {
      ExitTouchesOne(s, i, o, id);
    }
  }

  lemma OthersLeaveThread(s: State, e: Event, id: nat)
    requires id in s.threads && Foreign([e], id)
    ensures id in Step(s, e).threads && s.epoch <= Step(s, e).epoch
    ensures Step(s, e).threads[id] == if Step(s, e).epoch == s.epoch then s.threads[id] else s.threads[id].(pc := DONE)
  {
    assert e in [e];
    if e.StepThread? && e.id in s.threads {
      AdvanceTouchesOne(s, e.id, e.oracle, id);
    }
  }

  // Other events leave the thread where it is, unless the process dies and the thread with it.
  lemma {:induction false} OthersLeaveThreadInRun(s: State, events: seq<Event>, id: nat)
    requires id in s.threads && Foreign(events, id)
    ensures var s' := RunEvents(s, events);
            && id in s'.threads && s.epoch <= s'.epoch
            && s'.threads[id] == if s'.epoch == s.epoch then s.threads[id] else s.threads[id].(pc := DONE)
  {
    if events != [] {
      OthersLeaveThreadInRun(s, events[..|events| - 1], id);
      OthersLeaveThread(RunEvents(s, events[..|events| - 1]), events[|events| - 1], id);
    }
  }

  lemma {:induction false} RunsCompose(s: State, a: seq<Event>, b: seq<Event>)
    ensures RunEvents(s, a + b) == RunEvents(RunEvents(s, a), b)
  {
    if b == [] {
      assert a + b == a;
    } else {
      RunsCompose(s, a, b[..|b| - 1]);
      assert (a + b)[..|a + b| - 1] == a + b[..|b| - 1];
    }
  }

  lemma RunOne(s: State, a: seq<Event>, e: Event)
    ensures RunEvents(s, a + [e]) == Step(RunEvents(s, a), e)
  {
    assert (a + [e])[..|a|] == a;
  }

  // A handler's schedule: how it begins, what each of its steps is told, and who else runs before each of them.
  datatype Plan = Plan(id: nat, begin: Event, oracles: seq<Oracle>, others: seq<seq<Event>>) {
    predicate Valid() {
      |others| == |oracles| && forall e | e in others :: Foreign(e, id)
    }

    function Upto(k: nat): seq<Event>
      requires Valid() && k <= |oracles|
    {
      if k == 0 then [begin] else Upto(k - 1) + others[k - 1] + [StepThread(id, oracles[k - 1])]
    }

    // The states this schedule leads to, one after each of the handler's own steps.
    ghost predicate Traces(start: State, states: seq<State>) {
      && Valid() && |states| == |oracles| + 1
      && forall k {:trigger Upto(k)} | 0 <= k <= |oracles| :: states[k] == RunEvents(start, Upto(k))
    }

    lemma OneMore(k: nat, start: State, s: State)
      requires Valid() && k < |oracles| && s == RunEvents(RunEvents(start, Upto(k)), others[k]) && id in s.threads
      ensures Advance(s, id, oracles[k]) == RunEvents(start, Upto(k + 1))
      ensures s.threads[id].pc == DONE ==> s == RunEvents(start, Upto(k + 1))
    {
      RunsCompose(start, Upto(k), others[k]);
      RunOne(start, Upto(k) + others[k], StepThread(id, oracles[k]));
    }
  }

  // What a thread has left to write: the epilogue of a known outcome, or nothing once its process died.
  predicate Owes(t: Thread, outcome: Option<SendOutcome>)
    requires t.job.EntryJob?
  {
    t.pc == if outcome.None? then DONE else Storing(EntryEpilogue(t.job.payload.requestId, outcome.value))
  }

  function RefusalOf(r: Result<Option<Code>, ()>): Option<SendOutcome> {
    if r.Err? || r.value.None? then None else Some(Refused(r.value.value))
  }

  class ExecutionServer {
    const auth: AuthorizationStore
    const idem: IdempotencyStore
    const client: MT5Client
    const config: Config
    var epoch: nat
    // The call stacks of all requests, the log of sends, and the broker's deals.
    var threads: map<nat, Thread>
    var sends: seq<Send>
    var deals: seq<BrokerDeal>

    function View(): State reads this, auth, idem, client, client.guard {
      State(config, auth.Db(), idem.records, client.State(), epoch, threads, sends, deals)
    }

    constructor (config: Config)
      ensures View() == Initial(config) && this.config == config
      ensures fresh(auth) && fresh(idem) && fresh(client) && fresh(client.guard)
    {
      this.config := config;
      auth := new AuthorizationStore();
      idem := new IdempotencyStore();
      client := new MT5Client();
      epoch, threads, sends, deals := 0, map[], [], [];
    }

    method Become(s: State)
      requires s.config == config
      modifies this, auth, idem, client, client.guard
      ensures View() == s
    {
      auth.grants, auth.exits, auth.aborts := s.auth.grants, s.auth.exits, s.auth.aborts;
      idem.records := s.idem;
      client.connected, client.resolver, client.symbols, client.transition :=
        s.client.connected, s.client.resolver, s.client.symbols, s.client.transition;
      var g := client.guard;
      g.phase, g.generation, g.active, g.observed, g.fault, g.lastKey :=
        s.client.guard.phase, s.client.guard.generation, s.client.guard.active, s.client.guard.observed,
        s.client.guard.fault, s.client.guard.lastKey;
      epoch, threads, sends, deals := s.epoch, s.threads, s.sends, s.deals;
    }

    // Everybody else runs; the result says whether this process, and so this request, is still alive.
    method Meanwhile(events: seq<Event>, id: nat) returns (alive: bool)
      requires id in threads && Foreign(events, id)
      modifies this, auth, idem, client, client.guard
      ensures View() == RunEvents(old(View()), events)
      ensures id in threads && threads[id] == if alive then old(threads)[id] else old(threads)[id].(pc := DONE)
    {
      var s := RunEvents(View(), events);
      OthersLeaveThreadInRun(View(), events, id);
      ConfigIsFixed(View(), events);
      alive := s.epoch == epoch;
      Become(s);
    }

    method Move(id: nat, pc: Pc)
      requires id in threads
      modifies this`threads
      ensures View() == Goto(old(View()), id, pc)
    {
      threads := threads[id := threads[id].(pc := pc)];
    }

    // ---- POST orders ----

    method ClaimGrant(id: nat, o: Oracle) returns (claimed: Option<bool>)
      requires id in threads && threads[id].job.EntryJob?
      modifies this`threads, auth
      ensures View() == Claim(old(View()), id, o)
      ensures id in threads && threads[id] == old(threads)[id].(pc := threads[id].pc)
      ensures threads[id].pc == if claimed.Some? then Reserving(claimed.value) else DONE
    {
      var t := threads[id];
      var r := auth.Claim(t.grant, t.view, t.job.payload, o.now);
      claimed := if r.Ok? then Some(r.value) else None;
      Move(id, if r.Ok? then Reserving(r.value) else DONE);
    }

    method ReserveRequest(id: nat, claimed: bool) returns (proceed: bool)
      requires id in threads && threads[id].job.EntryJob? && threads[id].pc == Reserving(claimed)
      modifies this`threads, idem
      ensures View() == Execution.Reserve(old(View()), id)
      ensures id in threads && threads[id] == old(threads)[id].(pc := threads[id].pc)
      ensures threads[id].pc == if proceed then Preparing else DONE
    {
      var t := threads[id];
      var p := t.job.payload;
      var r := idem.Reserve(p.intent.clientOrderId, PayloadHash(p), p.requestId, p, t.expected);
      proceed := r.Ok? && r.value.1 && claimed;
      Move(id, if proceed then Preparing else DONE);
    }

    method Preflight(id: nat, o: Oracle) returns (error: Option<Code>)
      requires id in threads && threads[id].job.EntryJob?
      modifies this`threads
      ensures View() == Prepare(old(View()), id, o)
      ensures id in threads && threads[id] == old(threads)[id].(pc := threads[id].pc)
      ensures threads[id].pc == if error.Some? then
                Storing(EntryEpilogue(threads[id].job.payload.requestId, Refused(error.value))) else Sending
    {
      var p := threads[id].job.payload;
      error := o.refusal;
      if error.None? && (p.intent.orderType != Market || p.intent.timeInForce != Gtc) {
        error := Some(UnsupportedOrder);
      }
      Move(id, if error.Some? then Storing(EntryEpilogue(p.requestId, Refused(error.value))) else Sending);
    }

    method PlaceOrder(id: nat, o: Oracle) returns (outcome: SendOutcome)
      requires id in threads && threads[id].job.EntryJob?
      modifies this`threads, this`sends, client, client.guard
      ensures View() == SendEntry(old(View()), id, o)
      ensures id in threads && threads[id] == old(threads)[id].(pc := threads[id].pc)
      ensures threads[id].pc == Storing(EntryEpilogue(threads[id].job.payload.requestId, outcome))
    {
      var t := threads[id];
      var p := t.job.payload;
      var final := AuthorizeEntry(auth.Db(), t.grant, t.view, p, o.now);
      var invoked, account, result := SendGuarded(client, t.expected, EntryGate(o, p.intent.volume.value),
                                                  if final.Err? then Some(Denied(final.error)) else None, o.script);
      outcome := result;
      sends := sends + if invoked && account.Some? then
                         [Send(id, t.grant, EntrySend, p.intent.clientOrderId, Some(PayloadHash(p)),
                               p.intent.volume.value,
                               if p.intent.direction == 1 then 0
                               else 1, account.value, t.expected.generation, epoch, o.script.reply)]
                       else [];
      Move(id, Storing(EntryEpilogue(p.requestId, outcome)));
    }

    method FinishRequest(id: nat, state: RecordState, outcome: Outcome)
      requires id in threads && !threads[id].job.ExitJob? && !state.PendingRecord?
      requires threads[id].pc.Storing? && threads[id].pc != DONE && threads[id].pc.todo[0] == FinishAs(state, outcome)
      modifies this`threads, idem
      ensures View() == Store(old(View()), id)
      ensures id in threads && threads[id] == old(threads)[id].(pc := Storing(old(threads)[id].pc.todo[1..]))
    {
      idem.Finish(ClientOf(threads[id].job).value, state, outcome);
      Move(id, Storing(threads[id].pc.todo[1..]));
    }

    method DisableGrant(id: nat, reason: string)
      requires id in threads && threads[id].pc.Storing? && threads[id].pc != DONE
      requires threads[id].pc.todo[0] == Execution.Disable(reason)
      modifies this`threads, auth
      ensures View() == Store(old(View()), id)
      ensures id in threads && threads[id] == old(threads)[id].(pc := Storing(old(threads)[id].pc.todo[1..]))
    {
      auth.Disable(threads[id].grant, reason);
      Move(id, Storing(threads[id].pc.todo[1..]));
    }

    method BindAccepted(id: nat, order: int) returns (bound: bool)
      requires id in threads && threads[id].pc == Storing([BindOrder(order)])
      modifies this`threads, auth
      ensures View() == Store(old(View()), id)
      ensures id in threads && threads[id] == old(threads)[id].(pc := if bound then DONE else Storing(BIND_FAILED))
    {
      assert threads[id].pc.todo[1..] == [];
      var r := auth.Bind(threads[id].grant, threads[id].view, Some(order), None);
      bound := r.Ok?;
      Move(id, if bound then DONE else Storing(BIND_FAILED));
    }

    // Everybody else runs before the handler's next step. A dead handler takes the step by doing nothing.
    method Interleave(plan: Plan, k: nat, ghost start: State, ghost states: seq<State>) returns (alive: bool)
      requires plan.Traces(start, states) && k < |plan.oracles| && plan.id in threads && View() == states[k]
      modifies this, auth, idem, client, client.guard
      ensures plan.id in threads && threads[plan.id] == if alive then old(threads)[plan.id]
        else old(threads)[plan.id].(pc := DONE)
      ensures Advance(View(), plan.id, plan.oracles[k]) == states[k + 1]
      ensures !alive ==> View() == states[k + 1]
    {
      assert plan.others[k] in plan.others;
      assert states[k] == RunEvents(start, plan.Upto(k)) && states[k + 1] == RunEvents(start, plan.Upto(k + 1));
      alive := Meanwhile(plan.others[k], plan.id);
      plan.OneMore(k, start, View());
    }

    method ClaimStep(plan: Plan, k: nat, ghost start: State, ghost states: seq<State>) returns (claimed: Option<bool>)
      requires plan.Traces(start, states) && k < |plan.oracles| && plan.id in threads && View() == states[k]
      requires threads[plan.id].job.EntryJob? && threads[plan.id].pc.Claiming?
      modifies this, auth, idem, client, client.guard
      ensures View() == states[k + 1] && plan.id in threads && threads[plan.id].job == old(threads)[plan.id].job
      ensures threads[plan.id].pc == if claimed.Some? then Reserving(claimed.value) else DONE
    {
      claimed := None;
      var alive := Interleave(plan, k, start, states);
      if alive {
        claimed := ClaimGrant(plan.id, plan.oracles[k]);
      }
    }

    method ReserveStep(plan: Plan, k: nat, claimed: bool, ghost start: State, ghost states: seq<State>)
      returns (proceed: bool)
      requires plan.Traces(start, states) && k < |plan.oracles| && plan.id in threads && View() == states[k]
      requires threads[plan.id].job.EntryJob? && threads[plan.id].pc == Reserving(claimed)
      modifies this, auth, idem, client, client.guard
      ensures View() == states[k + 1] && plan.id in threads && threads[plan.id].job == old(threads)[plan.id].job
      ensures threads[plan.id].pc == if proceed then Preparing else DONE
    {
      proceed := false;
      var alive := Interleave(plan, k, start, states);
      if alive {
        proceed := ReserveRequest(plan.id, claimed);
      }
    }

    // Ok(None) when the request may be sent, Ok(Some(error)) when it is refused, Err when the process died.
    method PreflightStep(plan: Plan, k: nat, ghost start: State, ghost states: seq<State>)
      returns (r: Result<Option<Code>, ()>)
      requires plan.Traces(start, states) && k < |plan.oracles| && plan.id in threads && View() == states[k]
      requires threads[plan.id].job.EntryJob? && threads[plan.id].pc.Preparing?
      modifies this, auth, idem, client, client.guard
      ensures View() == states[k + 1] && plan.id in threads && threads[plan.id].job == old(threads)[plan.id].job
      ensures if r == Ok(None) then threads[plan.id].pc.Sending? else Owes(threads[plan.id], RefusalOf(r))
    {
      r := Err(());
      var alive := Interleave(plan, k, start, states);
      if alive {
        var error := Preflight(plan.id, plan.oracles[k]);
        r := Ok(error);
      }
    }

    method PlaceStep(plan: Plan, k: nat, ghost start: State, ghost states: seq<State>)
      returns (outcome: Option<SendOutcome>)
      requires plan.Traces(start, states) && k < |plan.oracles| && plan.id in threads && View() == states[k]
      requires threads[plan.id].job.EntryJob? && threads[plan.id].pc.Sending?
      modifies this, auth, idem, client, client.guard
      ensures View() == states[k + 1] && plan.id in threads && threads[plan.id].job == old(threads)[plan.id].job
      ensures Owes(threads[plan.id], outcome)
    {
      outcome := None;
      var alive := Interleave(plan, k, start, states);
      if alive {
        var result := PlaceOrder(plan.id, plan.oracles[k]);
        outcome := Some(result);
      }
    }

    method WriteStep(plan: Plan, k: nat, a: StoreAction, ghost start: State, ghost states: seq<State>)
      returns (alive: bool)
      requires plan.Traces(start, states) && k < |plan.oracles| && plan.id in threads && View() == states[k]
      requires threads[plan.id].job.EntryJob? && threads[plan.id].pc.Storing? && threads[plan.id].pc != DONE
      requires threads[plan.id].pc.todo[0] == a && (a.Disable? || (a.FinishAs? && !a.state.PendingRecord?))
      modifies this, auth, idem, client, client.guard
      ensures View() == states[k + 1] && plan.id in threads && threads[plan.id].job == old(threads)[plan.id].job
      ensures threads[plan.id].pc == if alive then Storing(old(threads)[plan.id].pc.todo[1..]) else DONE
    {
      alive := Interleave(plan, k, start, states);
      if alive {
        if a.Disable? {
          DisableGrant(plan.id, a.reason);
        } else {
          FinishRequest(plan.id, a.state, a.outcome);
        }
      }
    }

    method BindStep(plan: Plan, k: nat, order: int, ghost start: State, ghost states: seq<State>) returns (denied: bool)
      requires plan.Traces(start, states) && k < |plan.oracles| && plan.id in threads && View() == states[k]
      requires threads[plan.id].job.EntryJob? && threads[plan.id].pc == Storing([BindOrder(order)])
      modifies this, auth, idem, client, client.guard
      ensures View() == states[k + 1] && plan.id in threads && threads[plan.id].job == old(threads)[plan.id].job
      ensures threads[plan.id].pc == if denied then Storing(BIND_FAILED) else DONE
    {
      denied := false;
      var alive := Interleave(plan, k, start, states);
      if alive {
        var bound := BindAccepted(plan.id, order);
        denied := !bound;
      }
    }

    // The two writes after a failure, in the order the handler makes them.
    method RecordFailure(plan: Plan, k: nat, first: StoreAction, second: StoreAction, ghost start: State,
                         ghost states: seq<State>) returns (steps: nat)
      requires plan.Traces(start, states) && k + 1 < |plan.oracles| && plan.id in threads && View() == states[k]
      requires threads[plan.id].job.EntryJob? && threads[plan.id].pc == Storing([first, second])
      requires first.Disable? || (first.FinishAs? && !first.state.PendingRecord?)
      requires second.Disable? || (second.FinishAs? && !second.state.PendingRecord?)
      modifies this, auth, idem, client, client.guard
      ensures steps <= |plan.oracles| && View() == states[steps] && plan.id in threads && threads[plan.id].pc == DONE
    {
      var todo := [first, second];
      assert todo[1..] == [second];
      var alive := WriteStep(plan, k, first, start, states);
      steps := k + 1;
      if alive {
        LastWrite(plan, k + 1, second, start, states);
        steps := k + 2;
      }
    }

    method LastWrite(plan: Plan, k: nat, a: StoreAction, ghost start: State, ghost states: seq<State>)
      requires plan.Traces(start, states) && k < |plan.oracles| && plan.id in threads && View() == states[k]
      requires threads[plan.id].job.EntryJob? && threads[plan.id].pc == Storing([a])
      requires a.Disable? || (a.FinishAs? && !a.state.PendingRecord?)
      modifies this, auth, idem, client, client.guard
      ensures View() == states[k + 1] && plan.id in threads && threads[plan.id].pc == DONE
    {
      var todo := [a];
      assert todo[1..] == [];
      var _ := WriteStep(plan, k, a, start, states);
    }

    method RecordAccepted(plan: Plan, k: nat, order: int, retcode: int, ghost start: State, ghost states: seq<State>)
      returns (steps: nat)
      requires plan.Traces(start, states) && k + 3 < |plan.oracles| && plan.id in threads && View() == states[k]
      requires threads[plan.id].job.EntryJob?
      requires threads[plan.id].pc == Storing([FinishAs(Succeeded, Answered(order, retcode)), BindOrder(order)])
      modifies this, auth, idem, client, client.guard
      ensures steps <= |plan.oracles| && View() == states[steps] && plan.id in threads && threads[plan.id].pc == DONE
    {
      var alive := WriteStep(plan, k, FinishAs(Succeeded, Answered(order, retcode)), start, states);
      steps := k + 1;
      if !alive {
        return;
      }
      assert [FinishAs(Succeeded, Answered(order, retcode)), BindOrder(order)][1..] == [BindOrder(order)];
      var denied := BindStep(plan, k + 1, order, start, states);
      steps := k + 2;
      if denied {
        steps := RecordFailure(plan, k + 2, BIND_FAILED[0], BIND_FAILED[1], start, states);
      }
    }

    // What the handler writes once the outcome of its send is known.
    method RecordOutcome(plan: Plan, k: nat, outcome: SendOutcome, ghost start: State, ghost states: seq<State>)
      returns (steps: nat)
      requires plan.Traces(start, states) && k + 3 < |plan.oracles| && plan.id in threads && View() == states[k]
      requires threads[plan.id].job.EntryJob?
      requires threads[plan.id].pc == Storing(EntryEpilogue(threads[plan.id].job.payload.requestId, outcome))
      modifies this, auth, idem, client, client.guard
      ensures steps <= |plan.oracles| && View() == states[steps] && plan.id in threads && threads[plan.id].pc == DONE
    {
      var requestId := threads[plan.id].job.payload.requestId;
      if outcome.SentOk? && OrderResult(requestId, outcome.retcode, outcome.order).Ok? {
        steps := RecordAccepted(plan, k, outcome.order, outcome.retcode, start, states);
      } else {
        var todo := EntryEpilogue(requestId, outcome);
        assert todo == [todo[0], todo[1]];
        steps := RecordFailure(plan, k, todo[0], todo[1], start, states);
      }
    }

    // Nothing is left to write when the process died before its outcome was known.
    method RecordIfAlive(plan: Plan, k: nat, outcome: Option<SendOutcome>, ghost start: State, ghost states: seq<State>)
      returns (steps: nat)
      requires plan.Traces(start, states) && k + 3 < |plan.oracles| && plan.id in threads && View() == states[k]
      requires threads[plan.id].job.EntryJob?
      requires Owes(threads[plan.id], outcome)
      modifies this, auth, idem, client, client.guard
      ensures steps <= |plan.oracles| && View() == states[steps] && plan.id in threads && threads[plan.id].pc == DONE
    {
      if outcome.None? {
        return k;
      }
      steps := RecordOutcome(plan, k, outcome.value, start, states);
    }

    method PlaceSending(plan: Plan, k: nat, ghost start: State, ghost states: seq<State>) returns (steps: nat)
      requires plan.Traces(start, states) && k + 4 < |plan.oracles| && plan.id in threads && View() == states[k]
      requires threads[plan.id].job.EntryJob? && threads[plan.id].pc.Sending?
      modifies this, auth, idem, client, client.guard
      ensures steps <= |plan.oracles| && View() == states[steps] && plan.id in threads && threads[plan.id].pc == DONE
    {
      var outcome := PlaceStep(plan, k, start, states);
      steps := RecordIfAlive(plan, k + 1, outcome, start, states);
    }

    method PlaceAfterPreflight(plan: Plan, k: nat, r: Result<Option<Code>, ()>, ghost start: State,
                               ghost states: seq<State>) returns (steps: nat)
      requires plan.Traces(start, states) && k + 4 < |plan.oracles| && plan.id in threads && View() == states[k]
      requires threads[plan.id].job.EntryJob?
      requires if r == Ok(None) then threads[plan.id].pc.Sending? else Owes(threads[plan.id], RefusalOf(r))
      modifies this, auth, idem, client, client.guard
      ensures steps <= |plan.oracles| && View() == states[steps] && plan.id in threads && threads[plan.id].pc == DONE
    {
      if r == Ok(None) {
        steps := PlaceSending(plan, k, start, states);
      } else {
        steps := RecordIfAlive(plan, k, RefusalOf(r), start, states);
      }
    }

    method PlaceReserved(plan: Plan, k: nat, ghost start: State, ghost states: seq<State>) returns (steps: nat)
      requires plan.Traces(start, states) && k + 5 < |plan.oracles| && plan.id in threads && View() == states[k]
      requires threads[plan.id].job.EntryJob? && threads[plan.id].pc.Preparing?
      modifies this, auth, idem, client, client.guard
      ensures steps <= |plan.oracles| && View() == states[steps] && plan.id in threads && threads[plan.id].pc == DONE
    {
      var r := PreflightStep(plan, k, start, states);
      steps := PlaceAfterPreflight(plan, k + 1, r, start, states);
    }

    // Claim, reserve, send and record, each step a transaction of its own.
    method PlaceClaimed(plan: Plan, ghost start: State, ghost states: seq<State>) returns (steps: nat)
      requires plan.Traces(start, states) && |plan.oracles| == 8 && plan.id in threads && View() == states[0]
      requires threads[plan.id].job.EntryJob? && threads[plan.id].pc.Claiming?
      modifies this, auth, idem, client, client.guard
      ensures steps <= |plan.oracles| && View() == states[steps] && plan.id in threads && threads[plan.id].pc == DONE
    {
      var claimed := ClaimStep(plan, 0, start, states);
      steps := 1;
      if claimed.None? {
        return;
      }
      var proceed := ReserveStep(plan, 1, claimed.value, start, states);
      steps := 2;
      if proceed {
        steps := PlaceReserved(plan, 2, start, states);
      }
    }

    /** Whatever runs between its transactions, the order handler's effect is the machine's run over its schedule: the
        events of everybody else and its own steps in turn, up to the point where it answers or its process dies. */
    method CreateOrder(plan: Plan, grant: string, p: Payload, expected: Identity, view: SessionView, minimum: real)
      returns (steps: nat)
      requires plan.Valid() && plan.id !in threads && |plan.oracles| == 8
      requires plan.begin == BeginEntry(plan.id, grant, p, expected, view, minimum)
      modifies this, auth, idem, client, client.guard
      ensures steps <= |plan.oracles| && View() == RunEvents(old(View()), plan.Upto(steps))
      ensures plan.id in threads ==> threads[plan.id].pc == DONE
    {
      ghost var start := View();
      RunOne(start, [], plan.begin);
      assert [] + [plan.begin] == plan.Upto(0);
      steps := 0;
      var previous := idem.Get(p.intent.clientOrderId);
      if !MutationAllowed(config, true, expected, view)
         || (previous.Some? && previous.value.hash != PayloadHash(p)) || p.intent.volume.value != minimum {
        return;
      }
      threads := threads[plan.id := Thread(EntryJob(p), grant, view.(epoch := epoch), expected, Claiming)];
      ghost var states := seq(9, k requires 0 <= k < 9 => RunEvents(start, plan.Upto(k)));
      assert states[0] == RunEvents(start, plan.Upto(0));
      steps := PlaceClaimed(plan, start, states);
      assert states[steps] == RunEvents(start, plan.Upto(steps));
    }
  }

  lemma {:induction false} ConfigIsFixed(s: State, events: seq<Event>)
    ensures RunEvents(s, events).config == s.config
  {
    if events != [] {
      ConfigIsFixed(s, events[..|events| - 1]);
      StepKeepsConfig(RunEvents(s, events[..|events| - 1]), events[|events| - 1]);
    }
  }

  lemma StepKeepsConfig(s: State, e: Event)
    ensures Step(s, e).config == s.config
  {}
}
