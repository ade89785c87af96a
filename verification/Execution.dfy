/** The execution service as a machine: request threads, operator, recovery, crashes and the broker interleave freely
    over two durable tables. One event is one transaction, one locked terminal callback, or one broker action; whatever
    the environment decides arrives in the event. */
module Execution {
  import opened Wrappers
  import opened Session
  import opened Client
  import opened Orders
  import opened Authorization
  import opened Idempotency
  import opened Adapter

  datatype Config = Config(mutationEnabled: bool, demoPolicy: bool)

  datatype Job = EntryJob(payload: Payload) | ExitJob(op: ExitOp, target: int) | RecoveryJob(clientOrderId: string)

  datatype Scope = Scope(artifact: Artifact, orderId: Option<int>, positionId: Option<int>, claimed: bool)

  // What a handler still has to write once its outcome is known.
  datatype StoreAction =
    | FinishAs(state: RecordState, outcome: Outcome)
    | BindOrder(order: int)
    | Disable(reason: string)
    | FinishExitAs(exit: ExitState)

  datatype Pc =
    | Claiming | Reserving(claimed: bool) | Preparing | Sending
    | Scoping | Examining(scope: Scope) | Locating(scope: Scope) | BindingOrder(scope: Scope, order: int)
    | Exposing(scope: Scope, order: int) | BindingPosition(x: Exposure) | ReservingExit(x: Exposure)
    | SendingExit(x: Exposure)
    | Looking(record: IdemRecord)
    | Storing(todo: seq<StoreAction>)

  const DONE := Storing([])

  datatype Thread = Thread(job: Job, grant: string, view: SessionView, expected: Identity, pc: Pc)

  datatype SendOp = EntrySend | CancelSend | CloseSend

  // The log of order_send invocations, with what was true inside the locked callback that made each.
  datatype Send = Send(thread: nat, grant: string, op: SendOp, clientOrderId: string, hash: Option<PayloadHash>,
                       volume: real, kind: int, account: Fingerprint, generation: nat, epoch: nat, reply: Reply)

  // A deal at the broker, and the logged send it fills; None for deals of other origin.
  datatype BrokerDeal = BrokerDeal(send: Option<nat>, deal: RawDeal)

  datatype State = State(config: Config, auth: AuthDb, idem: IdemDb, client: ClientState, epoch: nat,
                         threads: map<nat, Thread>, sends: seq<Send>, deals: seq<BrokerDeal>)

  // Everything one thread step may learn from clock, terminal and broker.
  datatype Oracle = Oracle(
    now: int, refusal: Option<Code>, script: SendScript, gate: Option<Cause>, bookEmpty: bool, minimum: Option<real>,
    exposed: ExposureReads, request: CloseRequest, order: Option<Order>, position: int, symbol: string, confirmed: bool)

  datatype Event =
    | ProvisionGrant(artifact: Artifact)
    | KillEntry(grant: string, reason: string)
    | UseClient(use: ClientOp)
    | Crash(epoch: nat)
    | BeginEntry(id: nat, grant: string, payload: Payload, expected: Identity, view: SessionView, minimum: real)
    | BeginExit(id: nat, grant: string, exit: ExitOp, target: int, expected: Identity, view: SessionView)
    | BeginRecovery(id: nat, clientOrderId: string)
    | StepThread(id: nat, oracle: Oracle)
    | Fill(send: nat, order: int, position: int, symbol: string, volume: real)
    | ForeignDeal(deal: RawDeal)

  function Initial(config: Config): State {
    State(config, AuthDb(map[], map[], []), map[], FRESH_CLIENT, 0, map[], [], [])
  }

  // ---- Threads ----

  predicate MutationAllowed(c: Config, entry: bool, expected: Identity, view: SessionView) {
    && (entry ==> c.mutationEnabled) && c.demoPolicy
    && view.ready && view.mode == Demo
    && expected.generation == view.generation && view.account == Some(expected.account)
  }

  function Goto(s: State, id: nat, pc: Pc): State
    requires id in s.threads
  {
    s.(threads := s.threads[id := s.threads[id].(pc := pc)])
  }

  function EntryEpilogue(requestId: string, out: SendOutcome): seq<StoreAction> {
    match out
    case SentOk(order, retcode) =>
      if OrderResult(requestId, retcode, order).Ok? then
        [FinishAs(Succeeded, Answered(order, retcode)), BindOrder(order)]
      else [Disable("entry_outcome_unknown"), FinishAs(Indeterminate, Errored(None))]
    case SentAmbiguous(code) => [Disable("entry_outcome_unknown"), FinishAs(Indeterminate, Errored(code))]
    case Refused(error) =>
      if error.Other? then [FinishAs(Indeterminate, Errored(None)), Disable("entry_outcome_unknown")]
      else [Disable("entry_failed"), FinishAs(Failed, Errored(if error.RejectedBy? then Some(error.retcode) else None))]
  }

  const EXIT_FAILED := [FinishExitAs(ExitIndeterminate), Disable("exit_failed_operator_escalation")]
  const BIND_FAILED := [Disable("entry_failed"), FinishAs(Failed, Errored(None))]

  function Claim(s: State, id: nat, o: Oracle): State
    requires id in s.threads && s.threads[id].job.EntryJob?
  {
    var t := s.threads[id];
    var (db, r) := ClaimEntry(s.auth, t.grant, t.view, t.job.payload, o.now);
    Goto(s.(auth := db), id, if r.Ok? then Reserving(r.value) else DONE)
  }

  function Reserve(s: State, id: nat): State
    requires id in s.threads && s.threads[id].job.EntryJob? && s.threads[id].pc.Reserving?
  {
    var t := s.threads[id];
    var p := t.job.payload;
    var (db, r) := ReserveRecord(s.idem, p.intent.clientOrderId, PayloadHash(p), p.requestId, p, t.expected);
    Goto(s.(idem := db), id, if r.Ok? && r.value.1 && t.pc.claimed then Preparing else DONE)
  }

  function Prepare(s: State, id: nat, o: Oracle): State
    requires id in s.threads && s.threads[id].job.EntryJob?
  {
    var p := s.threads[id].job.payload;
    if o.refusal.Some? then Goto(s, id, Storing(EntryEpilogue(p.requestId, Refused(o.refusal.value))))
    else if p.intent.orderType != Market || p.intent.timeInForce != Gtc then
      Goto(s, id, Storing(EntryEpilogue(p.requestId, Refused(UnsupportedOrder))))
    else Goto(s, id, Sending)
  }

  function EntryGate(o: Oracle, volume: real): Option<Code> {
    if o.gate.Some? then Some(CauseCode(o.gate.value))
    else if !o.bookEmpty then Some(ScopeConflict) else if o.minimum != Some(volume) then Some(VolumeDenied) else None
  }

  function EntryReport(s: State, t: Thread, o: Oracle): SendReport
    requires t.job.EntryJob?
  {
    var final := AuthorizeEntry(s.auth, t.grant, t.view, t.job.payload, o.now);
    SendOnce(s.client, t.expected, EntryGate(o, t.job.payload.intent.volume.value),
             if final.Err? then Some(Denied(final.error)) else None, o.script)
  }

  function SendEntry(s: State, id: nat, o: Oracle): State
    requires id in s.threads && s.threads[id].job.EntryJob?
  {
    var t := s.threads[id];
    var p := t.job.payload;
    var report := EntryReport(s, t, o);
    var x := if report.invoked && report.account.Some? then
               [Send(id, t.grant, EntrySend, p.intent.clientOrderId, Some(PayloadHash(p)), p.intent.volume.value,
                     if p.intent.direction == 1 then 0 else 1,
                     report.account.value, t.expected.generation, s.epoch, o.script.reply)]
             else [];
    Goto(s.(client := report.client, sends := s.sends + x), id, Storing(EntryEpilogue(p.requestId, report.outcome)))
  }

  // ---- Exits ----

  function TakeScope(s: State, id: nat): State
    requires id in s.threads
  {
    var t := s.threads[id];
    var v := Verify(s.auth, t.grant, t.view);
    if v.Err? then Goto(s, id, DONE)
    else Goto(s, id, Examining(Scope(v.value.artifact, v.value.orderId, v.value.positionId, v.value.claim.Some?)))
  }

  function Examine(s: State, id: nat): State
    requires id in s.threads && s.threads[id].job.ExitJob? && s.threads[id].pc.Examining?
  {
    var t := s.threads[id];
    var bound := if t.job.op.CancelExit? then t.pc.scope.orderId else t.pc.scope.positionId;
    if bound == Some(t.job.target) && ExitKey(t.grant, t.job.op, t.job.target) in s.auth.exits then Goto(s, id, DONE)
    else Goto(s, id, Locating(t.pc.scope))
  }

  function Locate(s: State, id: nat, o: Oracle): State
    requires id in s.threads && s.threads[id].pc.Locating?
  {
    var t := s.threads[id];
    var scope := t.pc.scope;
    var client := scope.artifact.clientOrderId;
    if scope.orderId.Some? then Goto(s, id, Exposing(scope, scope.orderId.value))
    else if client !in s.idem || !scope.claimed || s.idem[client].session != Some(t.expected)
            || o.refusal.Some? || o.order.None? then Goto(s, id, DONE)
    else
      var r := RestoreOrderIntent(o.order.value, client, s.idem[client].requestId, s.idem[client].payload);
      if r.Ok? && r.value.intent.symbol == scope.artifact.symbol && r.value.intent.volume.value == scope.artifact.volume
      then Goto(s, id, BindingOrder(scope, r.value.ticket)) else Goto(s, id, DONE)
  }

  function BindLocated(s: State, id: nat): State
    requires id in s.threads && s.threads[id].pc.BindingOrder?
  {
    var t := s.threads[id];
    var (db, r) := BindExposure(s.auth, t.grant, t.view, Some(t.pc.order), None);
    Goto(s.(auth := db), id, if r.Ok? then Exposing(t.pc.scope, t.pc.order) else DONE)
  }

  function Expose(s: State, id: nat, o: Oracle): State
    requires id in s.threads && s.threads[id].job.ExitJob? && s.threads[id].pc.Exposing?
  {
    var t := s.threads[id];
    var a := t.pc.scope.artifact;
    var x := Exposure(a.clientOrderId, t.pc.order, if t.job.op.CloseExit? then o.position else 0, o.symbol, a.volume);
    if o.refusal.Some? || !ExposureProven(x, o.exposed, t.job.op) then Goto(s, id, DONE)
    else Goto(s, id, if t.job.op.CloseExit? then BindingPosition(x) else ReservingExit(x))
  }

  function BindPosition(s: State, id: nat): State
    requires id in s.threads && s.threads[id].pc.BindingPosition?
  {
    var t := s.threads[id];
    var (db, r) := BindExposure(s.auth, t.grant, t.view, None, Some(t.pc.x.position));
    Goto(s.(auth := db), id, if r.Ok? then ReservingExit(t.pc.x) else DONE)
  }

  function TakeExit(s: State, id: nat, o: Oracle): State
    requires id in s.threads && s.threads[id].job.ExitJob? && s.threads[id].pc.ReservingExit?
  {
    var t := s.threads[id];
    var (db, r) := ReserveExit(s.auth, t.grant, t.view, t.job.op, t.job.target, o.now);
    Goto(s.(auth := db), id, if r == Ok(None) then SendingExit(t.pc.x) else DONE)
  }

  function ExitReport(s: State, t: Thread, o: Oracle): SendReport
    requires t.job.ExitJob? && t.pc.SendingExit?
  {
    var final := AuthorizeExit(s.auth, t.grant, t.view, t.job.op, t.job.target, o.now);
    SendOnce(s.client, t.expected, if ExitProven(t.pc.x, o.exposed, t.job.op, o.request) then None
             else Some(ScopeConflict),
             if final.Err? then Some(Denied(final.error)) else None, o.script)
  }

  function SendExit(s: State, id: nat, o: Oracle): State
    requires id in s.threads && s.threads[id].job.ExitJob? && s.threads[id].pc.SendingExit?
  {
    var t := s.threads[id];
    var x := t.pc.x;
    if o.refusal.Some? || t.job.target != (if t.job.op.CloseExit? then x.position else x.order) then
      Goto(s, id, Storing(EXIT_FAILED))
    else
      var report := ExitReport(s, t, o);
      var sent := if report.invoked && report.account.Some? then
                    [Send(id, t.grant, if t.job.op.CloseExit? then CloseSend else CancelSend, x.clientOrderId, None,
                          if t.job.op.CloseExit? then o.request.volume else 0.0, o.request.kind,
                          report.account.value, t.expected.generation, s.epoch, o.script.reply)]
                  else [];
      Goto(s.(client := report.client, sends := s.sends + sent), id,
           Storing(if report.outcome.SentOk? && o.confirmed then [FinishExitAs(ExitSucceeded)] else EXIT_FAILED))
  }

  // ---- Recovery lookups ----

  function LookUp(s: State, id: nat, o: Oracle): State
    requires id in s.threads && s.threads[id].pc.Looking?
  {
    var record := s.threads[id].pc.record;
    if o.refusal.Some? || o.order.None? then Goto(s, id, DONE)
    else
      var r := RestoreOrderIntent(o.order.value, record.clientOrderId, record.requestId, record.payload);
      if r.Err? || RecoveredOrderResult(record.requestId, r.value).Err? then Goto(s, id, DONE)
      else Goto(s, id, Storing([FinishAs(if r.value.status.Rejected? then Failed else Succeeded,
                                         Recovered(r.value.ticket, r.value.status))]))
  }

  // ---- Writing what is known ----

  function ClientOf(j: Job): Option<string> {
    match j
    case EntryJob(p) => Some(p.intent.clientOrderId)
    case RecoveryJob(client) => Some(client)
    case ExitJob(_, _) => None
  }

  function Store(s: State, id: nat): State
    requires id in s.threads && s.threads[id].pc.Storing?
  {
    var t := s.threads[id];
    if t.pc.todo == [] then s
    else
      var rest := Storing(t.pc.todo[1..]);
      match t.pc.todo[0]
      case FinishAs(state, outcome) =>
        Goto(if ClientOf(t.job).Some? then s.(idem := FinishRecord(s.idem, ClientOf(t.job).value, state, outcome))
             else s, id, rest)
      case BindOrder(order) =>
        var (db, r) := BindExposure(s.auth, t.grant, t.view, Some(order), None);
        Goto(s.(auth := db), id, if r.Ok? then rest else Storing(BIND_FAILED))
      case Disable(reason) => Goto(s.(auth := DisableEntry(s.auth, t.grant, reason)), id, rest)
      case FinishExitAs(exit) =>
        Goto(if t.job.ExitJob? && !exit.ExitPending?
             then s.(auth := FinishExit(s.auth, ExitKey(t.grant, t.job.op, t.job.target), exit)) else s, id, rest)
  }

  function Advance(s: State, id: nat, o: Oracle): State
    requires id in s.threads
  {
    var t := s.threads[id];
    match t.pc
    case Claiming => if t.job.EntryJob? then Claim(s, id, o) else s
    case Reserving(_) => if t.job.EntryJob? then Reserve(s, id) else s
    case Preparing => if t.job.EntryJob? then Prepare(s, id, o) else s
    case Sending => if t.job.EntryJob? then SendEntry(s, id, o) else s
    case Scoping => TakeScope(s, id)
    case Examining(_) => if t.job.ExitJob? then Examine(s, id) else s
    case Locating(_) => Locate(s, id, o)
    case BindingOrder(_, _) => BindLocated(s, id)
    case Exposing(_, _) => if t.job.ExitJob? then Expose(s, id, o) else s
    case BindingPosition(_) => BindPosition(s, id)
    case ReservingExit(_) => if t.job.ExitJob? then TakeExit(s, id, o) else s
    case SendingExit(_) => if t.job.ExitJob? then SendExit(s, id, o) else s
    case Looking(_) => if t.job.RecoveryJob? then LookUp(s, id, o) else s
    case Storing(_) => Store(s, id)
  }

  // ---- The environment ----

  function FilledBy(deals: seq<BrokerDeal>, send: nat): real {
    if deals == [] then 0.0
    else FilledBy(deals[..|deals| - 1], send)
         + (if deals[|deals| - 1].send == Some(send) then deals[|deals| - 1].deal.volume else 0.0)
  }

  // The broker fills at most what a send asked for, and stamps each deal with that send's side and comment.
  function FillDeal(s: State, send: nat, order: int, position: int, symbol: string, volume: real): BrokerDeal
    requires send < |s.sends|
  {
    var x := s.sends[send];
    BrokerDeal(Some(send), RawDeal(order, position, symbol, if x.op.EntrySend? then 0 else 1, x.kind,
                                   if x.op.EntrySend? then Correlation(x.clientOrderId) else OtherComment, volume))
  }

  function Halted(threads: map<nat, Thread>): map<nat, Thread> {
    map id | id in threads :: threads[id].(pc := DONE)
  }

  function Step(s: State, e: Event): State {
    match e
    case ProvisionGrant(a) => s.(auth := Provision(s.auth, a).0)
    case KillEntry(grant, reason) => s.(auth := DisableEntry(s.auth, grant, reason))
    case UseClient(op) => s.(client := Apply(s.client, op))
    case Crash(epoch) =>
      if epoch <= s.epoch then s
      else s.(client := FRESH_CLIENT, epoch := epoch, threads := Halted(s.threads))
    case BeginEntry(id, grant, p, expected, view, minimum) =>
      var client := p.intent.clientOrderId;
      if id in s.threads || !MutationAllowed(s.config, true, expected, view)
         || (client in s.idem && s.idem[client].hash != PayloadHash(p)) || p.intent.volume.value != minimum then s
      else s.(threads := s.threads[id := Thread(EntryJob(p), grant, view.(epoch := s.epoch), expected, Claiming)])
    case BeginExit(id, grant, op, target, expected, view) =>
      if id in s.threads || !MutationAllowed(s.config, false, expected, view) then s
      else s.(threads :=
              s.threads[id := Thread(ExitJob(op, target), grant, view.(epoch := s.epoch), expected, Scoping)])
    case BeginRecovery(id, client) =>
      if id in s.threads || client !in s.idem then s
      else
        var record := s.idem[client];
        var none := SessionView(false, None, OtherMode, 0, s.epoch);
        var pc := if record.state.PendingRecord? || record.state.Indeterminate? then Looking(record) else DONE;
        s.(threads := s.threads[id := Thread(RecoveryJob(client), "", none, Identity(0, Sha256("")), pc)])
    case StepThread(id, o) => if id in s.threads then Advance(s, id, o) else s
    case Fill(send, order, position, symbol, volume) =>
      if send < |s.sends| && !s.sends[send].op.CancelSend? && 0.0 < volume
         && FilledBy(s.deals, send) + volume <= s.sends[send].volume
      then s.(deals := s.deals + [FillDeal(s, send, order, position, symbol, volume)]) else s
    case ForeignDeal(d) => s.(deals := s.deals + [BrokerDeal(None, d.(comment := OtherComment))])
  }

  function RunEvents(s: State, events: seq<Event>): State {
    if events == [] then s else Step(RunEvents(s, events[..|events| - 1]), events[|events| - 1])
  }
}
