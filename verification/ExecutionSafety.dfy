/** What every reachable state of the execution machine satisfies, and what that means for whole runs. */
module ExecutionSafety {
  import opened Wrappers
  import opened Session
  import opened Client
  import opened Orders
  import opened Authorization
  import opened Idempotency
  import opened Adapter
  import opened Execution

  // ---- Rights a thread may hold ----

  predicate HasClaim(t: Thread) {
    t.job.EntryJob? && (t.pc == Reserving(true) || t.pc.Preparing? || t.pc.Sending?)
  }

  predicate MaySendEntry(t: Thread) { t.job.EntryJob? && (t.pc.Preparing? || t.pc.Sending?) }

  // The thread that created a request record, until it has written everything it knows.
  predicate OwnsRecord(t: Thread) {
    t.job.EntryJob? && (t.pc.Preparing? || t.pc.Sending? || (t.pc.Storing? && t.pc != DONE))
  }

  predicate HasExit(t: Thread) { t.job.ExitJob? && t.pc.SendingExit? }

  function SendOpOf(op: ExitOp): SendOp { if op.CloseExit? then CloseSend else CancelSend }

  function ClientOrder(t: Thread): string
    requires t.job.EntryJob?
  {
    t.job.payload.intent.clientOrderId
  }

  predicate Captured(t: Thread, epoch: nat) {
    t.job.RecoveryJob? ||
    (&& t.view.ready && t.view.mode == Demo
     && t.expected.generation == t.view.generation && t.view.account == Some(t.expected.account)
     && (t.pc != DONE ==> t.view.epoch == epoch))
  }

  predicate ClaimBacked(s: State, t: Thread)
    requires t.job.EntryJob?
  {
    && t.grant in s.auth.grants
    && var g := s.auth.grants[t.grant];
    && g.claim == Some(PayloadHash(t.job.payload))
    && SessionMatches(g.artifact, t.view) && InScope(g.artifact, t.job.payload)
    && t.job.payload.intent.volume.value == g.artifact.volume
  }

  predicate RecordBacked(idem: IdemDb, client: string, hash: PayloadHash) {
    client in idem && idem[client].hash == hash
  }

  predicate ExitBacked(auth: AuthDb, t: Thread)
    requires t.job.ExitJob?
  {
    && t.grant in auth.grants
    && SessionMatches(auth.grants[t.grant].artifact, t.view)
    && BoundTarget(auth.grants[t.grant], t.job.op) == Some(t.job.target)
    && ExitKey(t.grant, t.job.op, t.job.target) in auth.exits
  }

  predicate ScopeOf(auth: AuthDb, t: Thread, scope: Scope) {
    t.grant in auth.grants && auth.grants[t.grant].artifact == scope.artifact
  }

  predicate ExposureOf(auth: AuthDb, t: Thread, x: Exposure) {
    && t.grant in auth.grants
    && x.clientOrderId == auth.grants[t.grant].artifact.clientOrderId
      && x.volume == auth.grants[t.grant].artifact.volume
  }

  // What an exit thread carries along is its own grant's scope.
  predicate Scoped(auth: AuthDb, t: Thread) {
    match t.pc
    case Examining(scope) => ScopeOf(auth, t, scope)
    case Locating(scope) => ScopeOf(auth, t, scope)
    case BindingOrder(scope, _) => ScopeOf(auth, t, scope)
    case Exposing(scope, _) => ScopeOf(auth, t, scope)
    case BindingPosition(x) => ExposureOf(auth, t, x)
    case ReservingExit(x) => ExposureOf(auth, t, x)
    case SendingExit(x) => ExposureOf(auth, t, x)
    case _ => true
  }

  predicate ThreadOk(s: State, t: Thread) {
    && Captured(t, s.epoch)
    && Scoped(s.auth, t)
    && (HasClaim(t) ==> ClaimBacked(s, t))
    && (OwnsRecord(t) ==> RecordBacked(s.idem, ClientOrder(t), PayloadHash(t.job.payload)))
    && (HasExit(t) ==> ExitBacked(s.auth, t))
  }

  predicate Unsent(sends: seq<Send>, t: Thread) {
    && (HasClaim(t) ==> forall x | x in sends :: !(x.op.EntrySend? && x.grant == t.grant))
    && (MaySendEntry(t) ==> forall x | x in sends :: !(x.op.EntrySend? && x.clientOrderId == ClientOrder(t)))
    && (HasExit(t) ==> forall x | x in sends :: !(x.op == SendOpOf(t.job.op) && x.grant == t.grant))
  }

  // No two threads hold the same right.
  predicate Apart(t: Thread, u: Thread) {
    && (HasClaim(t) && HasClaim(u) ==> t.grant != u.grant)
    && (OwnsRecord(t) && OwnsRecord(u) ==> ClientOrder(t) != ClientOrder(u))
    && (HasExit(t) && HasExit(u) ==> t.grant != u.grant || t.job.op != u.job.op)
  }

  predicate OnGrantedAccount(a: Artifact, x: Send) {
    TokenOf(x.account) == a.account && x.account.mode == Demo && x.generation == a.generation && x.epoch == a.epoch
  }

  predicate SendOk(auth: AuthDb, idem: IdemDb, x: Send) {
    && x.grant in auth.grants
    && var g := auth.grants[x.grant];
    && OnGrantedAccount(g.artifact, x)
    && (x.op.EntrySend? ==>
          && x.hash.Some? && g.claim == x.hash && RecordBacked(idem, x.clientOrderId, x.hash.value)
          && x.clientOrderId == g.artifact.clientOrderId && x.volume == g.artifact.volume)
    && (x.op.CancelSend? ==> g.orderId.Some? && ExitKey(x.grant, CancelExit, g.orderId.value) in auth.exits)
    && (x.op.CloseSend? ==>
          && g.positionId.Some? && ExitKey(x.grant, CloseExit, g.positionId.value) in auth.exits
          && x.clientOrderId == g.artifact.clientOrderId && x.volume == g.artifact.volume)
  }

  predicate SendsApart(x: Send, y: Send) {
    && !(x.op == y.op && x.grant == y.grant)
    && !(x.op.EntrySend? && y.op.EntrySend? && x.clientOrderId == y.clientOrderId)
  }

  predicate Inv(s: State) {
    && (forall i | i in s.threads :: ThreadOk(s, s.threads[i]) && Unsent(s.sends, s.threads[i]))
    && (forall i, j | i in s.threads && j in s.threads && i != j :: Apart(s.threads[i], s.threads[j]))
    && (forall x | x in s.sends :: SendOk(s.auth, s.idem, x))
    && (forall i, j | 0 <= i < j < |s.sends| :: SendsApart(s.sends[i], s.sends[j]))
    && Sound(s.client)
  }

  // Rows rise, records persist, the log of sends and the process epoch only grow.
  predicate Later(s: State, s': State) {
    Rises(s.auth, s'.auth) && Persists(s.idem, s'.idem) && s.sends <= s'.sends && s.epoch <= s'.epoch
  }

  // A step that keeps the invariant and sends nothing.
  predicate Quiet(s: State, s': State) {
    Inv(s') && Later(s, s') && s'.sends == s.sends
  }

  // ---- Steps that grant no right ----

  predicate NoNewRight(t: Thread, u: Thread) {
    && t.job == u.job && t.grant == u.grant && t.view == u.view && t.expected == u.expected
    && (HasClaim(u) ==> HasClaim(t)) && (MaySendEntry(u) ==> MaySendEntry(t)) && (OwnsRecord(u) ==> OwnsRecord(t))
    && (HasExit(u) ==> HasExit(t)) && (u.pc != DONE ==> t.pc != DONE)
  }

  predicate NoRight(t: Thread, epoch: nat) {
    Captured(t, epoch) && !HasClaim(t) && !OwnsRecord(t) && !HasExit(t)
  }

  lemma BackingSurvives(s: State, s': State, t: Thread)
    requires Rises(s.auth, s'.auth) && Persists(s.idem, s'.idem)
    ensures t.job.EntryJob? && ClaimBacked(s, t) ==> ClaimBacked(s', t)
    ensures t.job.EntryJob? && RecordBacked(s.idem, ClientOrder(t), PayloadHash(t.job.payload))
            ==> RecordBacked(s'.idem, ClientOrder(t), PayloadHash(t.job.payload))
    ensures t.job.ExitJob? && ExitBacked(s.auth, t) ==> ExitBacked(s'.auth, t)
    ensures Scoped(s.auth, t) ==> Scoped(s'.auth, t)
  {}

  lemma SendStaysOk(auth: AuthDb, auth': AuthDb, idem: IdemDb, idem': IdemDb, x: Send)
    requires Rises(auth, auth') && Persists(idem, idem') && SendOk(auth, idem, x)
    ensures SendOk(auth', idem', x)
  {}

  // Threads may lose rights, halt, or start without any; rows may rise; nothing is sent.
  lemma QuietStepKeepsInv(s: State, s': State)
    requires Inv(s)
    requires Later(s, s') && s'.sends == s.sends && Sound(s'.client)
    requires forall i | i in s'.threads ::
               || NoRight(s'.threads[i], s'.epoch)
               || (s'.epoch == s.epoch && i in s.threads && NoNewRight(s.threads[i], s'.threads[i]))
    requires forall i | i in s'.threads ::
               (i in s.threads && s'.threads[i] == s.threads[i]) || Scoped(s'.auth, s'.threads[i])
    ensures Quiet(s, s')
  {
    forall i | i in s'.threads ensures ThreadOk(s', s'.threads[i]) && Unsent(s'.sends, s'.threads[i]) {
      BackingSurvives(s, s', s'.threads[i]);
      if i in s.threads {
        assert ThreadOk(s, s.threads[i]);
      }
      if !NoRight(s'.threads[i], s'.epoch) {
        assert ThreadOk(s, s.threads[i]) && Unsent(s.sends, s.threads[i]);
      }
    }
    forall i, j | i in s'.threads && j in s'.threads && i != j ensures Apart(s'.threads[i], s'.threads[j]) {
      if !NoRight(s'.threads[i], s'.epoch) && !NoRight(s'.threads[j], s'.epoch) {
        assert Apart(s.threads[i], s.threads[j]);
      }
    }
    forall x | x in s'.sends ensures SendOk(s'.auth, s'.idem, x) {
      SendStaysOk(s.auth, s'.auth, s.idem, s'.idem, x);
    }
  }

  // One thread moves without gaining a right.
  lemma QuietMoveKeepsInv(s: State, m: State, id: nat, pc: Pc)
    requires Inv(s) && id in s.threads
    requires m.threads == s.threads && m.epoch == s.epoch && m.sends == s.sends
    requires Rises(s.auth, m.auth) && Persists(s.idem, m.idem) && Sound(m.client)
    requires NoNewRight(s.threads[id], s.threads[id].(pc := pc)) && Scoped(m.auth, s.threads[id].(pc := pc))
    ensures Quiet(s, Goto(m, id, pc))
  {
    QuietStepKeepsInv(s, Goto(m, id, pc));
  }

  // ---- Steps that grant a right or use one ----

  // One thread moves; its new rights are backed, unused, and nobody else's.
  lemma MovedThreadsStayOk(s: State, m: State, id: nat, pc: Pc)
    requires (forall i | i in s.threads :: ThreadOk(s, s.threads[i]) && Unsent(s.sends, s.threads[i]))
    requires id in s.threads
    requires m.threads == s.threads && m.epoch == s.epoch && m.sends == s.sends && Later(s, m)
    requires ThreadOk(m, s.threads[id].(pc := pc)) && Unsent(s.sends, s.threads[id].(pc := pc))
    ensures var s' := Goto(m, id, pc);
            forall i | i in s'.threads :: ThreadOk(s', s'.threads[i]) && Unsent(s'.sends, s'.threads[i])
  {
    var s' := Goto(m, id, pc);
    forall i | i in s'.threads ensures ThreadOk(s', s'.threads[i]) && Unsent(s'.sends, s'.threads[i]) {
      BackingSurvives(s, s', s.threads[i]);
      assert ThreadOk(s, s.threads[i]) && Unsent(s.sends, s.threads[i]);
    }
  }

  lemma MoverKeepsInv(s: State, m: State, id: nat, pc: Pc)
    requires Inv(s) && id in s.threads
    requires m.threads == s.threads && m.epoch == s.epoch && m.sends == s.sends && Later(s, m) && Sound(m.client)
    requires var u := s.threads[id].(pc := pc);
             ThreadOk(m, u) && Unsent(s.sends, u) && forall j | j in s.threads && j != id ::
               Apart(s.threads[j], u) && Apart(u, s.threads[j])
    ensures Quiet(s, Goto(m, id, pc))
  {
    var s' := Goto(m, id, pc);
    MovedThreadsStayOk(s, m, id, pc);
    forall i, j | i in s'.threads && j in s'.threads && i != j ensures Apart(s'.threads[i], s'.threads[j]) {
      assert Apart(s.threads[i], s.threads[j]);
    }
    forall x | x in s'.sends ensures SendOk(s'.auth, s'.idem, x) {
      SendStaysOk(s.auth, s'.auth, s.idem, s'.idem, x);
    }
  }

  lemma ClaimKeepsInv(s: State, id: nat, o: Oracle)
    requires Inv(s) && id in s.threads && s.threads[id].job.EntryJob? && s.threads[id].pc.Claiming?
    ensures Quiet(s, Claim(s, id, o))
  {
    var t := s.threads[id];
    var (db, r) := ClaimEntry(s.auth, t.grant, t.view, t.job.payload, o.now);
    var m := s.(auth := db);
    ClaimRises(s.auth, t.grant, t.view, t.job.payload, o.now);
    assert Persists(s.idem, s.idem) && ThreadOk(s, t);
    if r != Ok(true) {
      QuietMoveKeepsInv(s, m, id, if r.Ok? then Reserving(r.value) else DONE);
    } else {
      assert s.auth.grants[t.grant].claim.None?;
      var u := t.(pc := Reserving(true));
      forall x | x in s.sends ensures !(x.op.EntrySend? && x.grant == t.grant) {
        assert SendOk(s.auth, s.idem, x);
      }
      forall j | j in s.threads && j != id ensures Apart(s.threads[j], u) && Apart(u, s.threads[j]) {
        assert ThreadOk(s, s.threads[j]);
      }
      MoverKeepsInv(s, m, id, Reserving(true));
    }
  }

  lemma ReserveKeepsInv(s: State, id: nat)
    requires Inv(s) && id in s.threads && s.threads[id].job.EntryJob? && s.threads[id].pc.Reserving?
    ensures Quiet(s, Reserve(s, id))
  {
    var t := s.threads[id];
    var p := t.job.payload;
    var client := p.intent.clientOrderId;
    var (db, r) := ReserveRecord(s.idem, client, PayloadHash(p), p.requestId, p, t.expected);
    var m := s.(idem := db);
    assert Persists(s.idem, db) && Rises(s.auth, s.auth) && ThreadOk(s, t) && Unsent(s.sends, t);
    if !(r.Ok? && r.value.1 && t.pc.claimed) {
      QuietMoveKeepsInv(s, m, id, DONE);
    } else {
      assert client !in s.idem;
      var u := t.(pc := Preparing);
      forall x | x in s.sends ensures !(x.op.EntrySend? && x.clientOrderId == client) {
        assert SendOk(s.auth, s.idem, x);
      }
      forall j | j in s.threads && j != id ensures Apart(s.threads[j], u) && Apart(u, s.threads[j]) {
        assert ThreadOk(s, s.threads[j]) && Apart(s.threads[j], t) && Apart(t, s.threads[j]);
      }
      MoverKeepsInv(s, m, id, Preparing);
    }
  }

  lemma TakeExitKeepsInv(s: State, id: nat, o: Oracle)
    requires Inv(s) && id in s.threads && s.threads[id].job.ExitJob? && s.threads[id].pc.ReservingExit?
    ensures Quiet(s, TakeExit(s, id, o))
  {
    var t := s.threads[id];
    var (db, r) := ReserveExit(s.auth, t.grant, t.view, t.job.op, t.job.target, o.now);
    var m := s.(auth := db);
    ReserveExitRises(s.auth, t.grant, t.view, t.job.op, t.job.target, o.now);
    assert Persists(s.idem, s.idem) && ThreadOk(s, t);
    if r != Ok(None) {
      QuietMoveKeepsInv(s, m, id, DONE);
    } else {
      var pc := SendingExit(t.pc.x);
      var u := t.(pc := pc);
      var key := ExitKey(t.grant, t.job.op, t.job.target);
      assert key !in s.auth.exits && BoundTarget(s.auth.grants[t.grant], t.job.op) == Some(t.job.target);
      forall x | x in s.sends ensures !(x.op == SendOpOf(t.job.op) && x.grant == t.grant) {
        assert SendOk(s.auth, s.idem, x);
      }
      forall j | j in s.threads && j != id ensures Apart(s.threads[j], u) && Apart(u, s.threads[j]) {
        assert ThreadOk(s, s.threads[j]);
      }
      MoverKeepsInv(s, m, id, pc);
    }
  }

  lemma OthersStayUnsent(sends: seq<Send>, x: Send, sender: Thread, t: Thread)
    requires Unsent(sends, t) && Apart(t, sender) && MayLog(sender, x)
    ensures Unsent(sends + [x], t)
  {}

  // A thread that may log this send.
  predicate MayLog(t: Thread, x: Send) {
    && x.grant == t.grant
    && (x.op.EntrySend? ==> MaySendEntry(t) && x.clientOrderId == ClientOrder(t))
    && (!x.op.EntrySend? ==> HasExit(t) && x.op == SendOpOf(t.job.op))
  }

  lemma LoggedSendIsApart(s: State, id: nat, x: Send)
    requires Inv(s) && id in s.threads && MayLog(s.threads[id], x)
    ensures forall i, j | 0 <= i < j < |s.sends + [x]| :: SendsApart((s.sends + [x])[i], (s.sends + [x])[j])
  {
    assert Unsent(s.sends, s.threads[id]);
    forall i, j | 0 <= i < j < |s.sends + [x]| ensures SendsApart((s.sends + [x])[i], (s.sends + [x])[j]) {
      if j == |s.sends| {
        assert s.sends[i] in s.sends;
      }
    }
  }

  lemma LoggedThreadStaysOk(s: State, s': State, id: nat, x: Send, i: nat)
    requires Inv(s) && id in s.threads && MayLog(s.threads[id], x) && i in s.threads
    requires s'.auth == s.auth && s'.idem == s.idem && s'.epoch == s.epoch && s'.sends == s.sends + [x]
    requires i in s'.threads
    requires if i == id then s'.threads[i] == s.threads[i].(pc := s'.threads[i].pc) && s'.threads[i].pc.Storing?
      else s'.threads[i] == s.threads[i]
    ensures ThreadOk(s', s'.threads[i]) && Unsent(s'.sends, s'.threads[i])
  {
    assert ThreadOk(s, s.threads[i]) && Unsent(s.sends, s.threads[i]);
    if i != id {
      assert Apart(s.threads[i], s.threads[id]);
      OthersStayUnsent(s.sends, x, s.threads[id], s.threads[i]);
    }
  }

  // A thread uses its right: one send is logged and the right is gone.
  lemma LoggedSendKeepsInv(s: State, id: nat, client: ClientState, x: Send, pc: Pc)
    requires Inv(s) && id in s.threads && Sound(client) && pc.Storing?
    requires SendOk(s.auth, s.idem, x) && MayLog(s.threads[id], x)
    ensures Inv(Goto(s.(client := client, sends := s.sends + [x]), id, pc))
    ensures Later(s, Goto(s.(client := client, sends := s.sends + [x]), id, pc))
  {
    var s' := Goto(s.(client := client, sends := s.sends + [x]), id, pc);
    assert Rises(s.auth, s.auth) && Persists(s.idem, s.idem);
    LoggedSendIsApart(s, id, x);
    forall i | i in s'.threads ensures ThreadOk(s', s'.threads[i]) && Unsent(s'.sends, s'.threads[i]) {
      LoggedThreadStaysOk(s, s', id, x, i);
    }
    SenderStaysApart(s, id, pc);
  }

  // A thread that is only left with writing demands no more of the others than before.
  lemma SenderStaysApart(s: State, id: nat, pc: Pc)
    requires Inv(s) && id in s.threads && pc.Storing? && (MaySendEntry(s.threads[id]) || HasExit(s.threads[id]))
    ensures var ts := s.threads[id := s.threads[id].(pc := pc)];
            forall i, j | i in ts && j in ts && i != j :: Apart(ts[i], ts[j])
  {
    var ts := s.threads[id := s.threads[id].(pc := pc)];
    forall i, j | i in ts && j in ts && i != j ensures Apart(ts[i], ts[j]) {
      assert Apart(s.threads[i], s.threads[j]);
    }
  }

  /** Inside the callback that invokes order_send, the fresh account, mode, generation and epoch are the grant's own. */
  lemma EntryReportOnGrant(s: State, id: nat, o: Oracle)
    requires Inv(s) && id in s.threads && s.threads[id].job.EntryJob? && s.threads[id].pc.Sending?
    requires EntryReport(s, s.threads[id], o).invoked
    ensures var t := s.threads[id]; var a := EntryReport(s, t, o).account;
            && a.Some? && ClaimBacked(s, t) && RecordBacked(s.idem, ClientOrder(t), PayloadHash(t.job.payload))
            && !s.auth.grants[t.grant].killed
            && TokenOf(a.value) == s.auth.grants[t.grant].artifact.account && a.value.mode == Demo
            && t.expected.generation == s.auth.grants[t.grant].artifact.generation
            && s.epoch == s.auth.grants[t.grant].artifact.epoch
            && EnsureConnected(s.client, o.script.ensure).0.guard.generation == t.expected.generation
            && EnsureConnected(s.client, o.script.ensure).0.guard.IsReady()
  {
    var t := s.threads[id];
    assert ThreadOk(s, t);
    var final := AuthorizeEntry(s.auth, t.grant, t.view, t.job.payload, o.now);
    InvokedIffVerified(s.client, t.expected, EntryGate(o, t.job.payload.intent.volume.value),
                       if final.Err? then Some(Denied(final.error)) else None, o.script);
  }

  lemma ExitReportOnGrant(s: State, id: nat, o: Oracle)
    requires Inv(s) && id in s.threads && HasExit(s.threads[id])
    requires ExitReport(s, s.threads[id], o).invoked
    ensures var t := s.threads[id]; var a := ExitReport(s, t, o).account;
            && a.Some? && ExitBacked(s.auth, t)
            && ExitProven(t.pc.x, o.exposed, t.job.op, o.request)
            && TokenOf(a.value) == s.auth.grants[t.grant].artifact.account && a.value.mode == Demo
            && t.expected.generation == s.auth.grants[t.grant].artifact.generation
            && s.epoch == s.auth.grants[t.grant].artifact.epoch
            && EnsureConnected(s.client, o.script.ensure).0.guard.generation == t.expected.generation
            && EnsureConnected(s.client, o.script.ensure).0.guard.IsReady()
  {
    var t := s.threads[id];
    assert ThreadOk(s, t);
    var final := AuthorizeExit(s.auth, t.grant, t.view, t.job.op, t.job.target, o.now);
    InvokedIffVerified(s.client, t.expected,
                       if ExitProven(t.pc.x, o.exposed, t.job.op, o.request) then None else Some(ScopeConflict),
                       if final.Err? then Some(Denied(final.error)) else None, o.script);
  }

  lemma SendEntryKeepsInv(s: State, id: nat, o: Oracle)
    requires Inv(s) && id in s.threads && s.threads[id].job.EntryJob? && s.threads[id].pc.Sending?
    ensures Inv(SendEntry(s, id, o)) && Later(s, SendEntry(s, id, o))
  {
    var t := s.threads[id];
    var p := t.job.payload;
    var report := EntryReport(s, t, o);
    var pc := Storing(EntryEpilogue(p.requestId, report.outcome));
    var final := AuthorizeEntry(s.auth, t.grant, t.view, p, o.now);
    SendKeeps(s.client, t.expected, EntryGate(o, p.intent.volume.value),
              if final.Err? then Some(Denied(final.error)) else None, o.script);
    if report.invoked {
      EntryReportOnGrant(s, id, o);
      var x := Send(id, t.grant, EntrySend, p.intent.clientOrderId, Some(PayloadHash(p)), p.intent.volume.value,
                    if p.intent.direction == 1 then 0
                    else 1, report.account.value, t.expected.generation, s.epoch, o.script.reply);
      LoggedSendKeepsInv(s, id, report.client, x, pc);
    } else {
      assert s.sends + [] == s.sends;
      assert Persists(s.idem, s.idem) && Rises(s.auth, s.auth);
      QuietMoveKeepsInv(s, s.(client := report.client), id, pc);
    }
  }

  predicate ExitPrecluded(t: Thread, o: Oracle)
    requires HasExit(t)
  {
    o.refusal.Some? || t.job.target != (if t.job.op.CloseExit? then t.pc.x.position else t.pc.x.order)
  }

  function ExitPc(report: SendReport, o: Oracle): Pc {
    Storing(if report.outcome.SentOk? && o.confirmed then [FinishExitAs(ExitSucceeded)] else EXIT_FAILED)
  }

  lemma PrecludedExitKeepsInv(s: State, id: nat, o: Oracle)
    requires Inv(s) && id in s.threads && HasExit(s.threads[id]) && ExitPrecluded(s.threads[id], o)
    ensures Inv(SendExit(s, id, o)) && Later(s, SendExit(s, id, o))
  {
    assert Persists(s.idem, s.idem) && Rises(s.auth, s.auth);
    QuietMoveKeepsInv(s, s, id, Storing(EXIT_FAILED));
  }

  lemma UninvokedExitKeepsInv(s: State, id: nat, o: Oracle)
    requires Inv(s) && id in s.threads && HasExit(s.threads[id]) && !ExitPrecluded(s.threads[id], o)
    requires !ExitReport(s, s.threads[id], o).invoked
    ensures Inv(SendExit(s, id, o)) && Later(s, SendExit(s, id, o))
  {
    var t := s.threads[id];
    var report := ExitReport(s, t, o);
    assert Persists(s.idem, s.idem) && Rises(s.auth, s.auth);
    var final := AuthorizeExit(s.auth, t.grant, t.view, t.job.op, t.job.target, o.now);
    SendKeeps(s.client, t.expected,
              if ExitProven(t.pc.x, o.exposed, t.job.op, o.request) then None else Some(ScopeConflict),
              if final.Err? then Some(Denied(final.error)) else None, o.script);
    assert s.sends + [] == s.sends;
    QuietMoveKeepsInv(s, s.(client := report.client), id, ExitPc(report, o));
  }

  lemma InvokedExitKeepsInv(s: State, id: nat, o: Oracle)
    requires Inv(s) && id in s.threads && HasExit(s.threads[id]) && !ExitPrecluded(s.threads[id], o)
    requires ExitReport(s, s.threads[id], o).invoked
    ensures Inv(SendExit(s, id, o)) && Later(s, SendExit(s, id, o))
  {
    var t := s.threads[id];
    var report := ExitReport(s, t, o);
    var final := AuthorizeExit(s.auth, t.grant, t.view, t.job.op, t.job.target, o.now);
    SendKeeps(s.client, t.expected,
              if ExitProven(t.pc.x, o.exposed, t.job.op, o.request) then None else Some(ScopeConflict),
              if final.Err? then Some(Denied(final.error)) else None, o.script);
    ExitReportOnGrant(s, id, o);
    var y := Send(id, t.grant, SendOpOf(t.job.op), t.pc.x.clientOrderId, None,
                  if t.job.op.CloseExit? then o.request.volume else 0.0, o.request.kind,
                  report.account.value, t.expected.generation, s.epoch, o.script.reply);
    LoggedSendKeepsInv(s, id, report.client, y, ExitPc(report, o));
  }

  lemma SendExitKeepsInv(s: State, id: nat, o: Oracle)
    requires Inv(s) && id in s.threads && HasExit(s.threads[id])
    ensures Inv(SendExit(s, id, o)) && Later(s, SendExit(s, id, o))
  {
    if ExitPrecluded(s.threads[id], o) {
      PrecludedExitKeepsInv(s, id, o);
    } else if ExitReport(s, s.threads[id], o).invoked {
      InvokedExitKeepsInv(s, id, o);
    } else {
      UninvokedExitKeepsInv(s, id, o);
    }
  }

  lemma RecordWriteKeepsInv(s: State, id: nat)
    requires Inv(s) && id in s.threads && s.threads[id].pc.Storing? && s.threads[id].pc != DONE
    requires s.threads[id].pc.todo[0].FinishAs?
    ensures Quiet(s, Store(s, id))
  {
    var t := s.threads[id];
    var a := t.pc.todo[0];
    var m := if ClientOf(t.job).Some? then s.(idem := FinishRecord(s.idem, ClientOf(t.job).value, a.state, a.outcome))
      else s;
    assert Persists(s.idem, m.idem) && Rises(s.auth, m.auth);
    QuietMoveKeepsInv(s, m, id, Storing(t.pc.todo[1..]));
  }

  lemma GrantWriteKeepsInv(s: State, id: nat)
    requires Inv(s) && id in s.threads && s.threads[id].pc.Storing? && s.threads[id].pc != DONE
    requires s.threads[id].pc.todo[0].BindOrder? || s.threads[id].pc.todo[0].Disable?
    ensures Quiet(s, Store(s, id))
  {
    var t := s.threads[id];
    var a := t.pc.todo[0];
    var rest := Storing(t.pc.todo[1..]);
    assert Persists(s.idem, s.idem);
    if a.BindOrder? {
      var (db, r) := BindExposure(s.auth, t.grant, t.view, Some(a.order), None);
      BindRises(s.auth, t.grant, t.view, Some(a.order), None);
      QuietMoveKeepsInv(s, s.(auth := db), id, if r.Ok? then rest else Storing(BIND_FAILED));
    } else {
      DisableRises(s.auth, t.grant, a.reason);
      QuietMoveKeepsInv(s, s.(auth := DisableEntry(s.auth, t.grant, a.reason)), id, rest);
    }
  }

  lemma ExitWriteKeepsInv(s: State, id: nat)
    requires Inv(s) && id in s.threads && s.threads[id].pc.Storing? && s.threads[id].pc != DONE
    requires s.threads[id].pc.todo[0].FinishExitAs?
    ensures Quiet(s, Store(s, id))
  {
    var t := s.threads[id];
    var exit := t.pc.todo[0].exit;
    var rest := Storing(t.pc.todo[1..]);
    assert Persists(s.idem, s.idem) && Rises(s.auth, s.auth);
    if t.job.ExitJob? && !exit.ExitPending? {
      var key := ExitKey(t.grant, t.job.op, t.job.target);
      FinishExitRises(s.auth, key, exit);
      QuietMoveKeepsInv(s, s.(auth := FinishExit(s.auth, key, exit)), id, rest);
    } else {
      QuietMoveKeepsInv(s, s, id, rest);
    }
  }

  lemma StoreKeepsInv(s: State, id: nat)
    requires Inv(s) && id in s.threads && s.threads[id].pc.Storing?
    ensures Quiet(s, Store(s, id))
  {
    var t := s.threads[id];
    if t.pc.todo == [] {
      assert Persists(s.idem, s.idem) && Rises(s.auth, s.auth);
    } else if t.pc.todo[0].FinishAs? {
      RecordWriteKeepsInv(s, id);
    } else if t.pc.todo[0].FinishExitAs? {
      ExitWriteKeepsInv(s, id);
    } else {
      GrantWriteKeepsInv(s, id);
    }
  }

  // Steps that only read, or only write what the thread was already bound to write.
  lemma PrepareKeepsInv(s: State, id: nat, o: Oracle)
    requires Inv(s) && id in s.threads && s.threads[id].job.EntryJob? && s.threads[id].pc.Preparing?
    ensures Quiet(s, Prepare(s, id, o))
  {
    assert Persists(s.idem, s.idem) && Rises(s.auth, s.auth);
    QuietMoveKeepsInv(s, s, id, Prepare(s, id, o).threads[id].pc);
  }

  lemma ScopingKeepsInv(s: State, id: nat)
    requires Inv(s) && id in s.threads && s.threads[id].pc.Scoping?
    ensures Quiet(s, TakeScope(s, id))
  {
    assert Persists(s.idem, s.idem) && Rises(s.auth, s.auth);
    QuietMoveKeepsInv(s, s, id, TakeScope(s, id).threads[id].pc);
  }

  lemma ExamineKeepsInv(s: State, id: nat)
    requires Inv(s) && id in s.threads && s.threads[id].job.ExitJob? && s.threads[id].pc.Examining?
    ensures Quiet(s, Examine(s, id))
  {
    assert Persists(s.idem, s.idem) && Rises(s.auth, s.auth) && ThreadOk(s, s.threads[id]);
    QuietMoveKeepsInv(s, s, id, Examine(s, id).threads[id].pc);
  }

  lemma LocateKeepsInv(s: State, id: nat, o: Oracle)
    requires Inv(s) && id in s.threads && s.threads[id].pc.Locating?
    ensures Quiet(s, Locate(s, id, o))
  {
    var pc := Locate(s, id, o).threads[id].pc;
    assert Persists(s.idem, s.idem) && Rises(s.auth, s.auth) && ThreadOk(s, s.threads[id]);
    assert Locate(s, id, o) == Goto(s, id, pc);
    QuietMoveKeepsInv(s, s, id, pc);
  }

  lemma ExposingStepsKeepInv(s: State, id: nat, o: Oracle)
    requires Inv(s) && id in s.threads
    ensures s.threads[id].job.ExitJob? && s.threads[id].pc.Exposing? ==> Quiet(s, Expose(s, id, o))
    ensures s.threads[id].job.RecoveryJob? && s.threads[id].pc.Looking? ==> Quiet(s, LookUp(s, id, o))
  {
    var t := s.threads[id];
    assert Persists(s.idem, s.idem) && Rises(s.auth, s.auth);
    if t.job.ExitJob? && t.pc.Exposing? {
      QuietMoveKeepsInv(s, s, id, Expose(s, id, o).threads[id].pc);
    } else if t.job.RecoveryJob? && t.pc.Looking? {
      QuietMoveKeepsInv(s, s, id, LookUp(s, id, o).threads[id].pc);
    }
  }

  lemma BindingStepsKeepInv(s: State, id: nat)
    requires Inv(s) && id in s.threads
    ensures s.threads[id].pc.BindingOrder? ==> Quiet(s, BindLocated(s, id))
    ensures s.threads[id].pc.BindingPosition? ==> Quiet(s, BindPosition(s, id))
  {
    var t := s.threads[id];
    assert Persists(s.idem, s.idem);
    if t.pc.BindingOrder? {
      var (db, r) := BindExposure(s.auth, t.grant, t.view, Some(t.pc.order), None);
      BindRises(s.auth, t.grant, t.view, Some(t.pc.order), None);
      QuietMoveKeepsInv(s, s.(auth := db), id, if r.Ok? then Exposing(t.pc.scope, t.pc.order) else DONE);
    } else if t.pc.BindingPosition? {
      var (db, r) := BindExposure(s.auth, t.grant, t.view, None, Some(t.pc.x.position));
      BindRises(s.auth, t.grant, t.view, None, Some(t.pc.x.position));
      QuietMoveKeepsInv(s, s.(auth := db), id, if r.Ok? then ReservingExit(t.pc.x) else DONE);
    }
  }

  // The two kinds of step that can invoke order_send.
  predicate Sends(s: State, e: Event) {
    e.StepThread? && e.id in s.threads
    && (HasExit(s.threads[e.id]) || (s.threads[e.id].job.EntryJob? && s.threads[e.id].pc.Sending?))
  }

  lemma AdvanceEntryKeepsInv(s: State, id: nat, o: Oracle)
    requires Inv(s) && id in s.threads && s.threads[id].job.EntryJob?
    requires s.threads[id].pc.Claiming? || s.threads[id].pc.Reserving? || s.threads[id].pc.Preparing?
             || s.threads[id].pc.Sending?
    ensures Inv(Advance(s, id, o)) && Later(s, Advance(s, id, o))
    ensures Sends(s, StepThread(id, o)) || Advance(s, id, o).sends == s.sends
  {
    if s.threads[id].pc.Claiming? { ClaimKeepsInv(s, id, o); }
    else if s.threads[id].pc.Reserving? { ReserveKeepsInv(s, id); }
    else if s.threads[id].pc.Preparing? { PrepareKeepsInv(s, id, o); }
    else { SendEntryKeepsInv(s, id, o); }
  }

  lemma AdvanceKeepsInv(s: State, id: nat, o: Oracle)
    requires Inv(s) && id in s.threads
    ensures Inv(Advance(s, id, o)) && Later(s, Advance(s, id, o))
    ensures Sends(s, StepThread(id, o)) || Advance(s, id, o).sends == s.sends
  {
    var t := s.threads[id];
    if t.pc.Storing? { StoreKeepsInv(s, id); }
    else if t.pc.Claiming? || t.pc.Reserving? || t.pc.Preparing? || t.pc.Sending? {
      if t.job.EntryJob? { AdvanceEntryKeepsInv(s, id, o); }
    }
    else if t.pc.Scoping? { ScopingKeepsInv(s, id); }
    else if t.pc.Examining? {
      if t.job.ExitJob? { ExamineKeepsInv(s, id); }
    }
    else if t.pc.Locating? { LocateKeepsInv(s, id, o); }
    else if t.pc.BindingOrder? || t.pc.BindingPosition? { BindingStepsKeepInv(s, id); }
    else if t.pc.Exposing? || t.pc.Looking? { ExposingStepsKeepInv(s, id, o); }
    else if t.job.ExitJob? {
      if t.pc.ReservingExit? { TakeExitKeepsInv(s, id, o); } else { SendExitKeepsInv(s, id, o); }
    }
  }

  lemma FreshIsSound()
    ensures Sound(FRESH_CLIENT)
  {}

  // Nothing about the threads changes: rows rise, the client moves, or the broker's book does.
  lemma SameThreadsKeepInv(s: State, s': State)
    requires Inv(s) && Rises(s.auth, s'.auth) && s'.idem == s.idem && Sound(s'.client)
    requires s'.sends == s.sends && s'.threads == s.threads && s'.epoch == s.epoch
    ensures Quiet(s, s')
  {
    assert Persists(s.idem, s.idem);
    QuietStepKeepsInv(s, s');
  }

  lemma EnvironmentKeepsInv(s: State, e: Event)
    requires Inv(s) && (e.ProvisionGrant? || e.KillEntry? || e.UseClient? || e.Fill? || e.ForeignDeal?)
    ensures Quiet(s, Step(s, e))
  {
    assert Rises(s.auth, s.auth);
    if e.ProvisionGrant? {
      ProvisionRises(s.auth, e.artifact);
      SameThreadsKeepInv(s, s.(auth := Provision(s.auth, e.artifact).0));
    } else if e.KillEntry? {
      DisableRises(s.auth, e.grant, e.reason);
      SameThreadsKeepInv(s, s.(auth := DisableEntry(s.auth, e.grant, e.reason)));
    } else if e.UseClient? {
      ApplyKeeps(s.client, e.use);
      SameThreadsKeepInv(s, s.(client := Apply(s.client, e.use)));
    } else {
      SameThreadsKeepInv(s, Step(s, e));
    }
  }

  lemma CrashKeepsInv(s: State, e: Event)
    requires Inv(s) && e.Crash?
    ensures Quiet(s, Step(s, e))
  {
    assert Persists(s.idem, s.idem) && Rises(s.auth, s.auth);
    FreshIsSound();
    forall i | i in s.threads ensures NoRight(s.threads[i].(pc := DONE), e.epoch) {
      assert ThreadOk(s, s.threads[i]);
    }
    if s.epoch < e.epoch {
      QuietStepKeepsInv(s, Step(s, e));
    }
  }

  lemma NewThreadKeepsInv(s: State, id: nat, t: Thread)
    requires Inv(s) && id !in s.threads && NoRight(t, s.epoch) && Scoped(s.auth, t)
    ensures Quiet(s, s.(threads := s.threads[id := t]))
  {
    assert Persists(s.idem, s.idem) && Rises(s.auth, s.auth);
    QuietStepKeepsInv(s, s.(threads := s.threads[id := t]));
  }

  lemma StartOrStopKeepsInv(s: State, e: Event)
    requires Inv(s) && (e.Crash? || e.BeginEntry? || e.BeginExit? || e.BeginRecovery?)
    ensures Quiet(s, Step(s, e))
  {
    assert Persists(s.idem, s.idem) && Rises(s.auth, s.auth);
    if e.Crash? {
      CrashKeepsInv(s, e);
    } else if Step(s, e) != s {
      NewThreadKeepsInv(s, e.id, Step(s, e).threads[e.id]);
    }
  }

  lemma StepKeepsInv(s: State, e: Event)
    requires Inv(s)
    ensures Inv(Step(s, e)) && Later(s, Step(s, e))
    ensures Sends(s, e) || Step(s, e).sends == s.sends
  {
    if e.StepThread? {
      if e.id in s.threads {
        AdvanceKeepsInv(s, e.id, e.oracle);
      }
    } else if e.Crash? || e.BeginEntry? || e.BeginExit? || e.BeginRecovery? {
      StartOrStopKeepsInv(s, e);
    } else {
      EnvironmentKeepsInv(s, e);
    }
  }

  /** Every reachable state satisfies the invariant. */
  lemma {:induction false} RunKeepsInv(c: Config, events: seq<Event>)
    ensures Inv(RunEvents(Initial(c), events))
  {
    if events == [] {
      FreshIsSound();
    } else {
      RunKeepsInv(c, events[..|events| - 1]);
      StepKeepsInv(RunEvents(Initial(c), events[..|events| - 1]), events[|events| - 1]);
    }
  }
}
