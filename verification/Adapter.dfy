/** The single-attempt terminal adapter: fresh identity checks, proof of exposure, and one guarded send. */
module Adapter {
  import opened Wrappers
  import opened Session
  import opened Client
  import opened Orders
  import opened Authorization
  import opened Idempotency

  datatype Code =
    | TransitionCode | Unavailable | ModeUnknownCode | RealForbidden | ChangedBeforeSend
    | ScopeConflict | VolumeDenied | UnsupportedOrder | Denied(denial: Denial) | RejectedBy(retcode: int) | Other

  // ---- Fresh identity inside the locked callback ----

  function SessionError(g: GuardState): Option<Code> {
    if g.phase.SwitchDetected? then Some(TransitionCode)
    else if g.phase.Unknown? || g.fault == ModeUnknown then Some(ModeUnknownCode)
    else if !g.IsReady() then Some(Unavailable)
    else None
  }

  function AccountModeError(g: GuardState): Option<Code> {
    if g.Identity().None? then Some(ModeUnknownCode)
    else match g.Identity().value.mode
      case Real => Some(RealForbidden)
      case Demo => None
      case OtherMode => Some(ModeUnknownCode)
  }

  function CauseCode(cause: Cause): Code { if cause.Outage? then Unavailable else Other }

  // A throw-away guard observes the account; only the generation comes from the client's own guard.
  function FreshMutationStatus(current: GuardState, reading: Reading): Result<GuardState, Code> {
    match reading
    case ReadFails(cause) => Err(CauseCode(cause))
    case Read(info) =>
      if info.NoAccount? then Err(Unavailable)
      else if !info.tradeMode.Code? then Err(ModeUnknownCode)
      else if SessionError(current).Some? then Err(SessionError(current).value)
      else Ok(Observe(FRESH_GUARD, info).(generation := current.generation))
  }

  function ValidateSession(expected: Identity, seen: GuardState): Result<Fingerprint, Code> {
    if SessionError(seen).Some? then Err(SessionError(seen).value)
    else if seen.generation != expected.generation || seen.Identity().None?
            || TokenOf(seen.Identity().value) != expected.account then Err(ChangedBeforeSend)
    else if AccountModeError(seen).Some? then Err(AccountModeError(seen).value)
    else Ok(seen.Identity().value)
  }

  function ValidateFresh(current: GuardState, expected: Identity, reading: Reading): Result<Fingerprint, Code> {
    var seen := FreshMutationStatus(current, reading);
    if seen.Err? then Err(seen.error) else ValidateSession(expected, seen.value)
  }

  /** The check passes exactly when the account read now is the expected one, in Demo mode, and the guard is ready
      under the expected generation. */
  lemma FreshIffExpected(current: GuardState, expected: Identity, reading: Reading)
    requires Coherent(current)
    ensures ValidateFresh(current, expected, reading).Ok? <==>
            && reading.Read? && reading.info.Account? && reading.info.tradeMode.Code?
            && current.IsReady() && current.fault != ModeUnknown && current.generation == expected.generation
            && Candidate(reading.info).Some?
            && Candidate(reading.info).value.mode == Demo
            && TokenOf(Candidate(reading.info).value) == expected.account
    ensures ValidateFresh(current, expected, reading).Ok?
            ==> ValidateFresh(current, expected, reading).value == Candidate(reading.info).value
  {}

  // ---- Proof that a position or order is the authorized exposure ----

  // The correlation token is a truncated hash of the client order id, taken as injective.
  datatype Comment = Correlation(clientOrderId: string) | OtherComment

  datatype RawOrder = RawOrder(ticket: int, symbol: string, comment: Comment, initial: real, current: real)
  datatype RawDeal = RawDeal(order: int, position: int, symbol: string, entry: int, kind: int, comment: Comment,
                             volume: real)
  datatype RawPosition = RawPosition(ticket: int, symbol: string, kind: int, volume: real)

  // The terminal's answers; None stands for a failed read.
  datatype ExposureReads = ExposureReads(
    history: Option<seq<RawOrder>>, active: Option<seq<RawOrder>>,
    positions: Option<seq<RawPosition>>, deals: Option<seq<RawDeal>>, current: Option<seq<RawPosition>>)

  datatype Exposure = Exposure(clientOrderId: string, order: int, position: int, symbol: string, volume: real)

  datatype CloseRequest = CloseRequest(position: int, symbol: string, volume: real, kind: int)

  predicate OwnOrder(x: Exposure, o: RawOrder) {
    o.symbol == x.symbol && o.comment == Correlation(x.clientOrderId) && 0.0 < o.initial == x.volume
  }

  predicate OrdersProven(x: Exposure, history: seq<RawOrder>, active: seq<RawOrder>) {
    && (exists o :: o in history + active && o.ticket == x.order)
    && (forall o | o in history + active && o.ticket == x.order :: OwnOrder(x, o))
  }

  predicate OwnDeal(x: Exposure, kind: int, d: RawDeal) {
    && d.order == x.order && d.position == x.position && d.symbol == x.symbol && d.entry == 0 && d.kind == kind
    && d.comment == Correlation(x.clientOrderId) && 0.0 < d.volume
  }

  function TotalVolume(deals: seq<RawDeal>): real {
    if deals == [] then 0.0 else TotalVolume(deals[..|deals| - 1]) + deals[|deals| - 1].volume
  }

  predicate PositionProven(x: Exposure, p: RawPosition, deals: seq<RawDeal>) {
    && p.ticket == x.position && p.symbol == x.symbol && p.volume == x.volume
    && deals != []
    && (forall d | d in deals :: OwnDeal(x, p.kind, d))
    && TotalVolume(deals) == x.volume
  }

  predicate ExposureProven(x: Exposure, r: ExposureReads, op: ExitOp) {
    && 0 < x.order && 0.0 < x.volume
    && r.history.Some? && r.active.Some? && OrdersProven(x, r.history.value, r.active.value)
    && match op
       case CancelExit => |r.active.value| == 1 && r.active.value[0].current == x.volume
       case CloseExit =>
         && 0 < x.position && r.positions.Some? && r.deals.Some? && |r.positions.value| == 1
         && PositionProven(x, r.positions.value[0], r.deals.value)
  }

  predicate CloseRequestProven(x: Exposure, r: ExposureReads, q: CloseRequest) {
    && r.current.Some? && |r.current.value| == 1
    && var p := r.current.value[0];
    && q.position == x.position && q.symbol == x.symbol && q.volume == x.volume
    && p.volume == x.volume && p.symbol == x.symbol && p.kind in {0, 1}
    && q.kind == if p.kind == 0 then 1 else 0
  }

  predicate ExitProven(x: Exposure, r: ExposureReads, op: ExitOp, q: CloseRequest) {
    ExposureProven(x, r, op) && (op.CloseExit? ==> CloseRequestProven(x, r, q))
  }

  method ValidateExposure(x: Exposure, r: ExposureReads, op: ExitOp) returns (proven: bool)
    ensures proven == ExposureProven(x, r, op)
  {
    if x.order <= 0 || x.volume <= 0.0 || r.history.None? || r.active.None? {
      return false;
    }
    var candidates := r.history.value + r.active.value;
    var matching := 0;
    for i := 0 to |candidates|
      invariant matching == 0 <==> forall k | 0 <= k < i :: candidates[k].ticket != x.order
      invariant matching >= 0
      invariant forall k | 0 <= k < i && candidates[k].ticket == x.order :: OwnOrder(x, candidates[k])
    {
      if candidates[i].ticket == x.order {
        matching := matching + 1;
        if !OwnOrder(x, candidates[i]) {
          assert candidates[i] in candidates;
          return false;
        }
      }
    }
    if matching == 0 {
      return false;
    }
    if op.CancelExit? {
      return |r.active.value| == 1 && r.active.value[0].current == x.volume;
    }
    if x.position <= 0 || r.positions.None? || r.deals.None? || |r.positions.value| != 1 || r.deals.value == [] {
      return false;
    }
    var p := r.positions.value[0];
    if p.ticket != x.position || p.symbol != x.symbol || p.volume != x.volume {
      return false;
    }
    var deals := r.deals.value;
    var total := 0.0;
    for i := 0 to |deals|
      invariant total == TotalVolume(deals[..i])
      invariant forall k | 0 <= k < i :: OwnDeal(x, p.kind, deals[k])
    {
      if !OwnDeal(x, p.kind, deals[i]) {
        assert deals[i] in deals;
        return false;
      }
      total := total + deals[i].volume;
      assert deals[..i + 1][..i] == deals[..i];
    }
    assert deals[..|deals|] == deals;
    proven := total == x.volume;
  }

  // ---- One guarded send ----

  // What order_send did: raised, returned nothing, returned something unreadable, or a retcode with an order number.
  datatype Reply = SendRaised | NoReply | MalformedReply | Reply(retcode: int, order: int)

  datatype SendScript = SendScript(
    ensure: EnsureScript, first: Reading, second: Reading, reply: Reply, after: Reading, rebuild: Build)

  datatype SendOutcome = SentOk(order: int, retcode: int) | SentAmbiguous(code: Option<int>) | Refused(error: Code)

  datatype SendReport = SendReport(client: ClientState, invoked: bool, account: Option<Fingerprint>,
                                   outcome: SendOutcome)

  // Before order_send is invoked a transition is a clean refusal; any other error keeps its code.
  function RefusalCode(c: Code): Code {
    if c == TransitionCode then ChangedBeforeSend else c
  }

  function Classify(reply: Reply): SendOutcome {
    if !reply.Reply? then SentAmbiguous(None)
    else if reply.retcode in AMBIGUOUS_RETCODES then SentAmbiguous(Some(reply.retcode))
    else if reply.retcode !in SUCCESS_RETCODES then Refused(RejectedBy(reply.retcode))
    else SentOk(reply.order, reply.retcode)
  }

  // Connecting raises only what is not a lost connection; a rebuild also raises when there is no catalog.
  function RaisedCode(e: EnsureScript): Code {
    if e.connect.Connected? && e.build.BuildRaises? then CauseCode(e.build.cause) else Other
  }

  // The checks between the two identity readings, and the final authorization, are decided by the caller.
  function SendOnce(c: ClientState, expected: Identity, gate: Option<Code>, final: Option<Code>,
                    s: SendScript): SendReport {
    var (c1, e) := EnsureConnected(c, s.ensure);
    if e.Raised? then
      SendReport(c1, false, None, Refused(RaisedCode(s.ensure)))
    else if e.Closed? then
      SendReport(c1, false, None,
                 Refused(if c1.guard.phase.SwitchDetected? || c1.transition then ChangedBeforeSend else Unavailable))
    else
      var first := ValidateFresh(c1.guard, expected, s.first);
      var second := ValidateFresh(c1.guard, expected, s.second);
      if first.Err? then SendReport(Reset(c1), false, None, Refused(RefusalCode(first.error)))
      else if gate.Some? then SendReport(Reset(c1), false, None, Refused(RefusalCode(gate.value)))
      else if second.Err? then SendReport(Reset(c1), false, None, Refused(RefusalCode(second.error)))
      else if final.Some? then SendReport(Reset(c1), false, None, Refused(RefusalCode(final.value)))
      else if s.reply.SendRaised? then SendReport(Reset(c1), true, Some(second.value), SentAmbiguous(None))
      else
        var (c2, r) := Conclude(c1, c1.guard.generation, s.reply, s.after, s.rebuild);
        SendReport(c2, true, Some(second.value), if r.Value? then Classify(r.value) else SentAmbiguous(None))
  }

  method SendGuarded(client: MT5Client, expected: Identity, gate: Option<Code>, final: Option<Code>, s: SendScript)
    returns (invoked: bool, account: Option<Fingerprint>, outcome: SendOutcome)
    modifies client, client.guard
    ensures SendReport(client.State(), invoked, account, outcome)
              == SendOnce(old(client.State()), expected, gate, final, s)
  {
    invoked, account := false, None;
    var e := client.EnsureConnectedUnsafe(s.ensure);
    if e.Raised? {
      return invoked, account, Refused(RaisedCode(s.ensure));
    }
    var generation := client.guard.generation;
    if e.Closed? {
      return invoked, account,
        Refused(if client.guard.phase.SwitchDetected? || client.transition then ChangedBeforeSend else Unavailable);
    }
    var error: Option<Code> := None;
    var first := ValidateFresh(client.guard.State(), expected, s.first);
    var second := ValidateFresh(client.guard.State(), expected, s.second);
    if first.Err? {
      error := Some(first.error);
    } else if gate.Some? {
      error := gate;
    } else if second.Err? {
      error := Some(second.error);
    } else if final.Some? {
      error := final;
    }
    if error.Some? {
      client.ResetUnsafe();
      return invoked, account, Refused(RefusalCode(error.value));
    }
    invoked, account := true, Some(second.value);
    if s.reply.SendRaised? {
      client.ResetUnsafe();
      return invoked, account, SentAmbiguous(None);
    }
    var r := client.ConcludeUnsafe(generation, s.reply, s.after, s.rebuild);
    outcome := if r.Value? then Classify(r.value) else SentAmbiguous(None);
  }

  /** order_send is invoked exactly when the session is established and every check passes, and then on the expected
      Demo account under the expected generation. */
  lemma InvokedIffVerified(c: ClientState, expected: Identity, gate: Option<Code>, final: Option<Code>, s: SendScript)
    requires Sound(c)
    ensures var r := SendOnce(c, expected, gate, final, s); var (c1, e) := EnsureConnected(c, s.ensure);
            && (r.invoked <==> e.Established? && gate.None? && final.None?
                               && ValidateFresh(c1.guard, expected, s.first).Ok?
                                 && ValidateFresh(c1.guard, expected, s.second).Ok?)
            && (r.invoked
                ==> r.account.Some? && TokenOf(r.account.value) == expected.account && r.account.value.mode == Demo
                              && c1.guard.IsReady() && c1.guard.generation == expected.generation)
  {
    EnsureKeeps(c, s.ensure);
    FreshIffExpected(EnsureConnected(c, s.ensure).0.guard, expected, s.second);
  }

  /** A refusal is never an unknown outcome: either nothing was sent, or the broker itself rejected what was sent. */
  lemma RefusedMeansNotAccepted(c: ClientState, expected: Identity, gate: Option<Code>, final: Option<Code>,
                                s: SendScript)
    ensures var r := SendOnce(c, expected, gate, final, s);
            && (r.outcome.Refused? && r.invoked ==>
                  s.reply.Reply? && s.reply.retcode !in SUCCESS_RETCODES + AMBIGUOUS_RETCODES
                  && r.outcome.error == RejectedBy(s.reply.retcode))
            && (r.outcome.SentOk? ==> r.invoked && s.reply == Reply(r.outcome.retcode, r.outcome.order)
                                      && r.outcome.retcode in SUCCESS_RETCODES)
            && (r.outcome.SentAmbiguous? ==> r.invoked)
  {}

  lemma SendLeavesOneOf(c: ClientState, expected: Identity, gate: Option<Code>, final: Option<Code>, s: SendScript)
    ensures var c1 := EnsureConnected(c, s.ensure).0;
            SendOnce(c, expected, gate, final, s).client in
              {c1, Reset(c1), Conclude(c1, c1.guard.generation, s.reply, s.after, s.rebuild).0}
  {}

  lemma FollowsTransitively(a: GuardState, b: GuardState, c: GuardState)
    requires Follows(a, b) && Follows(b, c)
    ensures Follows(a, c)
  {}

  lemma ResetKeeps(c: ClientState)
    requires Sound(c)
    ensures Sound(Reset(c)) && Follows(c.guard, Reset(c).guard)
  {}

  lemma SendKeeps(c: ClientState, expected: Identity, gate: Option<Code>, final: Option<Code>, s: SendScript)
    requires Sound(c)
    ensures Sound(SendOnce(c, expected, gate, final, s).client)
    ensures Follows(c.guard, SendOnce(c, expected, gate, final, s).client.guard)
  {
    EnsureKeeps(c, s.ensure);
    var c1 := EnsureConnected(c, s.ensure).0;
    var g := c1.guard.generation;
    ConcludeKeeps(c1, g, s.reply, s.after, s.rebuild);
    ResetKeeps(c1);
    SendLeavesOneOf(c, expected, gate, final, s);
    FollowsTransitively(c.guard, c1.guard, Reset(c1).guard);
    FollowsTransitively(c.guard, c1.guard, Conclude(c1, g, s.reply, s.after, s.rebuild).0.guard);
  }

  // ---- Reads assembled from several guarded calls ----

  // Between two calls of one read the rest of the process may do anything to the client.
  datatype ReadStep<+T> = ReadStep(meanwhile: seq<ClientOp>, script: CallScript<T>)

  // A value together with the account and generation in force while it was computed.
  datatype Tagged<+T> = Tagged(value: T, account: Fingerprint, generation: nat)

  method Meanwhile(client: MT5Client, ops: seq<ClientOp>)
    requires Sound(client.State())
    modifies client, client.guard
    ensures Sound(client.State())
  {
    for m := 0 to |ops|
      invariant Sound(client.State())
    {
      ApplyKeeps(client.State(), ops[m]);
      client.Perform(ops[m]);
    }
  }

  // One call of a read frame: inside the lock the identity must still be the one the frame expects.
  method FramedCall<T>(client: MT5Client, expected: Option<(nat, Token)>, script: CallScript<T>)
    returns (r: Option<Tagged<T>>)
    requires Sound(client.State())
    modifies client, client.guard
    ensures Sound(client.State())
    ensures r.Some? ==>
              && Some(r.value.value) == script.action.outcome
              && (expected.Some? ==> expected.value == (r.value.generation, TokenOf(r.value.account)))
    ensures r.Some? ==>
              var before := EnsureConnected(old(client.State()), script.ensure).0.guard;
              var after := client.State().guard;
              && before.IsReady() && before.active == Some(r.value.account) && before.generation == r.value.generation
              && after.IsReady() && after.active == before.active && after.generation == before.generation
  {
    EnsureKeeps(client.State(), script.ensure);
    var e := client.EnsureConnectedUnsafe(script.ensure);
    if !e.Established? {
      return None;
    }
    var account, generation := client.guard.active.value, client.guard.generation;
    var answer := script.action.outcome;
    if expected.Some? && (generation, TokenOf(account)) != expected.value {
      answer := None;
    } else if script.action.init.Some? {
      var ok := client.InitResolverUnsafe(script.action.init.value.0, script.action.init.value.1);
      answer := if ok then answer else None;
    }
    if answer.None? {
      client.ResetUnsafe();
      return None;
    }
    ConcludeKeeps(client.State(), generation, answer.value, script.after, script.rebuild);
    ObserveKeeps(client.State(), script.after);
    var result := client.ConcludeUnsafe(generation, answer.value, script.after, script.rebuild);
    r := if result.Value? then Some(Tagged(result.value, account, generation)) else None;
  }

  /** Every value of one consistent read comes from one account under one generation. */
  method ConsistentRead<T>(client: MT5Client, steps: seq<ReadStep<T>>) returns (r: Option<seq<Tagged<T>>>)
    requires Sound(client.State())
    modifies client, client.guard
    ensures Sound(client.State())
    ensures r.Some? ==>
              && |r.value| == |steps|
              && (forall i | 0 <= i < |steps| :: Some(r.value[i].value) == steps[i].script.action.outcome)
              && (forall i, j | 0 <= i < |steps| && 0 <= j < |steps| ::
                    r.value[i].account == r.value[j].account && r.value[i].generation == r.value[j].generation)
  {
    var expected: Option<(nat, Token)> := None;
    var values: seq<Tagged<T>> := [];
    for k := 0 to |steps|
      invariant Sound(client.State())
      invariant |values| == k && (k == 0 <==> expected.None?)
      invariant forall i | 0 <= i < k ::
          && Some(values[i].value) == steps[i].script.action.outcome
          && expected == Some((values[i].generation, TokenOf(values[i].account)))
    {
      Meanwhile(client, steps[k].meanwhile);
      var value := FramedCall(client, expected, steps[k].script);
      if value.None? {
        return None;
      }
      expected := Some((value.value.generation, TokenOf(value.value.account)));
      values := values + [value.value];
    }
    forall i, j | 0 <= i < |steps| && 0 <= j < |steps|
      ensures values[i].account == values[j].account && values[i].generation == values[j].generation
    {
      TokenIdentifiesAccount(values[i].account, values[j].account);
    }
    r := Some(values);
  }
}
