/** What the execution service guarantees over every run: one entry per grant and per client order, three sends per
    grant, nothing after a kill, and nothing on another account, generation or process than the grant names. */
module ExecutionTheorems {
  import opened Wrappers
  import opened Client
  import opened Authorization
  import opened Idempotency
  import opened Adapter
  import opened Execution
  import opened ExecutionSafety

  // ---- One step ----

  // What is true in the very transaction or callback that adds a send to the log.
  predicate Verified(s: State, e: Event, x: Send) {
    && e.StepThread?
    && SendOk(s.auth, s.idem, x) && x.epoch == s.epoch
    && (x.op.EntrySend? ==> !s.auth.grants[x.grant].killed)
    && var during := EnsureConnected(s.client, e.oracle.script.ensure).0.guard;
    && during.IsReady() && Coherent(during) && during.generation == x.generation && Follows(s.client.guard, during)
  }

  predicate AddsAtMostOne(s: State, e: Event, sends: seq<Send>) {
    sends == s.sends || (|sends| == |s.sends| + 1 && sends[..|s.sends|] == s.sends && Verified(s, e, sends[|s.sends|]))
  }

  lemma EntrySendIsVerified(s: State, id: nat, o: Oracle)
    requires Inv(s) && id in s.threads && s.threads[id].job.EntryJob? && s.threads[id].pc.Sending?
    ensures AddsAtMostOne(s, StepThread(id, o), SendEntry(s, id, o).sends)
  {
    EnsureKeeps(s.client, o.script.ensure);
    if EntryReport(s, s.threads[id], o).invoked {
      EntryReportOnGrant(s, id, o);
    }
  }

  lemma ExitSendIsVerified(s: State, id: nat, o: Oracle)
    requires Inv(s) && id in s.threads && HasExit(s.threads[id])
    ensures AddsAtMostOne(s, StepThread(id, o), SendExit(s, id, o).sends)
  {
    EnsureKeeps(s.client, o.script.ensure);
    if ExitReport(s, s.threads[id], o).invoked {
      ExitReportOnGrant(s, id, o);
    }
  }

  /** A step adds at most one send, and only with the claim and the request record already durable in the state it
      starts from, the grant not killed, and the fresh account, mode, generation and epoch those of the grant. */
  lemma EverySendIsVerified(s: State, e: Event)
    requires Inv(s)
    ensures AddsAtMostOne(s, e, Step(s, e).sends)
  {
    StepKeepsInv(s, e);
    if Sends(s, e) {
      if s.threads[e.id].job.EntryJob? {
        EntryStepIsVerified(s, e);
      } else {
        ExitStepIsVerified(s, e);
      }
    }
  }

  lemma EntryStepIsVerified(s: State, e: Event)
    requires Inv(s) && Sends(s, e) && s.threads[e.id].job.EntryJob?
    ensures AddsAtMostOne(s, e, Step(s, e).sends)
  {
    EntrySendIsVerified(s, e.id, e.oracle);
    assert Step(s, e) == SendEntry(s, e.id, e.oracle);
  }

  lemma ExitStepIsVerified(s: State, e: Event)
    requires Inv(s) && Sends(s, e) && !s.threads[e.id].job.EntryJob?
    ensures AddsAtMostOne(s, e, Step(s, e).sends)
  {
    ExitSendIsVerified(s, e.id, e.oracle);
    assert Step(s, e) == SendExit(s, e.id, e.oracle);
  }

  // ---- Whole runs ----

  /** Over any run authorization rows only rise, request records persist, and the log of sends only grows. */
  lemma {:induction false} RunIsMonotone(s: State, events: seq<Event>)
    requires Inv(s)
    ensures Inv(RunEvents(s, events)) && Later(s, RunEvents(s, events))
  {
    if events == [] {
      assert Persists(s.idem, s.idem) && Rises(s.auth, s.auth);
    } else {
      var m := RunEvents(s, events[..|events| - 1]);
      RunIsMonotone(s, events[..|events| - 1]);
      StepKeepsInv(m, events[|events| - 1]);
      var n := RunEvents(s, events);
      RisesTransitively(s.auth, m.auth, n.auth);
      forall id | id in s.idem
        ensures id in n.idem && n.idem[id] == s.idem[id].(state := n.idem[id].state, outcome := n.idem[id].outcome)
      {
        assert id in m.idem;
      }
    }
  }

  function CountSends(sends: seq<Send>, grant: string, op: SendOp): nat {
    if sends == [] then 0
    else CountSends(sends[..|sends| - 1], grant, op)
         + (if sends[|sends| - 1].grant == grant && sends[|sends| - 1].op == op then 1 else 0)
  }

  function CountEntriesFor(sends: seq<Send>, client: string): nat {
    if sends == [] then 0
    else CountEntriesFor(sends[..|sends| - 1], client)
         + (if sends[|sends| - 1].op.EntrySend? && sends[|sends| - 1].clientOrderId == client then 1 else 0)
  }

  lemma {:induction false} PairwiseApartCountsOne(sends: seq<Send>, grant: string, op: SendOp)
    requires forall i, j | 0 <= i < j < |sends| :: SendsApart(sends[i], sends[j])
    ensures CountSends(sends, grant, op) <= 1
    ensures CountSends(sends, grant, op) == 0 <==> forall x | x in sends :: !(x.grant == grant && x.op == op)
  {
    if sends != [] {
      var most, last := sends[..|sends| - 1], sends[|sends| - 1];
      PairwiseApartCountsOne(most, grant, op);
      assert sends == most + [last];
      if last.grant == grant && last.op == op {
        forall x | x in most ensures !(x.grant == grant && x.op == op) {
          var i :| 0 <= i < |most| && most[i] == x;
          assert SendsApart(sends[i], sends[|sends| - 1]);
        }
      }
    }
  }

  lemma {:induction false} PairwiseApartCountsOneClient(sends: seq<Send>, client: string)
    requires forall i, j | 0 <= i < j < |sends| :: SendsApart(sends[i], sends[j])
    ensures CountEntriesFor(sends, client) <= 1
    ensures CountEntriesFor(sends, client) == 0
            <==> forall x | x in sends :: !(x.op.EntrySend? && x.clientOrderId == client)
  {
    if sends != [] {
      var most, last := sends[..|sends| - 1], sends[|sends| - 1];
      PairwiseApartCountsOneClient(most, client);
      assert sends == most + [last];
      if last.op.EntrySend? && last.clientOrderId == client {
        forall x | x in most ensures !(x.op.EntrySend? && x.clientOrderId == client) {
          var i :| 0 <= i < |most| && most[i] == x;
          assert SendsApart(sends[i], sends[|sends| - 1]);
        }
      }
    }
  }

  /** At most one entry is ever sent per grant and per client order id, in every interleaving. */
  lemma AtMostOneEntry(c: Config, events: seq<Event>, grant: string, client: string)
    ensures CountSends(RunEvents(Initial(c), events).sends, grant, EntrySend) <= 1
    ensures CountEntriesFor(RunEvents(Initial(c), events).sends, client) <= 1
  {
    RunKeepsInv(c, events);
    PairwiseApartCountsOne(RunEvents(Initial(c), events).sends, grant, EntrySend);
    PairwiseApartCountsOneClient(RunEvents(Initial(c), events).sends, client);
  }

  /** No entry that was ever sent lacks its claim or its recovery record, and both name the payload that was sent. */
  lemma EverySentOrderIsRecoverable(c: Config, events: seq<Event>)
    ensures var s := RunEvents(Initial(c), events);
            forall x | x in s.sends && x.op.EntrySend? ::
              && x.hash.Some? && x.grant in s.auth.grants && s.auth.grants[x.grant].claim == x.hash
              && x.clientOrderId in s.idem && s.idem[x.clientOrderId].hash == x.hash.value
  {
    RunKeepsInv(c, events);
  }

  /** Whatever exit targets are requested, a grant causes at most one cancel, one close and three sends in all. */
  lemma AtMostThreeSends(c: Config, events: seq<Event>, grant: string)
    ensures var sends := RunEvents(Initial(c), events).sends;
            && CountSends(sends, grant, CancelSend) <= 1 && CountSends(sends, grant, CloseSend) <= 1
            && CountSends(sends, grant, EntrySend) + CountSends(sends, grant, CancelSend)
              + CountSends(sends, grant, CloseSend) <= 3
  {
    RunKeepsInv(c, events);
    var sends := RunEvents(Initial(c), events).sends;
    PairwiseApartCountsOne(sends, grant, EntrySend);
    PairwiseApartCountsOne(sends, grant, CancelSend);
    PairwiseApartCountsOne(sends, grant, CloseSend);
  }

  /** Every send of a run was made on the account, generation and process the grant names, in Demo mode. */
  lemma EverySendOnGrantedAccount(c: Config, events: seq<Event>)
    ensures var s := RunEvents(Initial(c), events);
            forall x | x in s.sends :: x.grant in s.auth.grants && OnGrantedAccount(s.auth.grants[x.grant].artifact, x)
  {
    RunKeepsInv(c, events);
  }

  lemma KilledAddsNoEntry(m: State, e: Event, sends: seq<Send>, from: nat, grant: string)
    requires AddsAtMostOne(m, e, sends) && grant in m.auth.grants && m.auth.grants[grant].killed && from <= |m.sends|
    requires forall i | from <= i < |m.sends| :: !(m.sends[i].op.EntrySend? && m.sends[i].grant == grant)
    ensures from <= |sends| && forall i | from <= i < |sends| :: !(sends[i].op.EntrySend? && sends[i].grant == grant)
  {
    forall i | from <= i < |sends| ensures !(sends[i].op.EntrySend? && sends[i].grant == grant) {
      assert i < |m.sends| ==> sends[i] == m.sends[i];
    }
  }

  /** Once a grant is killed, no later entry is sent under it. */
  lemma {:induction false} NoEntryAfterKill(s: State, events: seq<Event>, grant: string)
    requires Inv(s) && grant in s.auth.grants && s.auth.grants[grant].killed
    ensures var sends := RunEvents(s, events).sends;
            |s.sends| <= |sends| && forall i | |s.sends| <= i < |sends| ::
              !(sends[i].op.EntrySend? && sends[i].grant == grant)
  {
    if events != [] {
      var m := RunEvents(s, events[..|events| - 1]);
      NoEntryAfterKill(s, events[..|events| - 1], grant);
      RunIsMonotone(s, events[..|events| - 1]);
      EverySendIsVerified(m, events[|events| - 1]);
      KilledAddsNoEntry(m, events[|events| - 1], RunEvents(s, events).sends, |s.sends|, grant);
    }
  }

  // ---- A raised call retires its generation ----

  // In this process, or any later one, nothing may any longer happen under the generation or an earlier one.
  predicate Retired(s: State, epoch: nat, generation: nat) {
    || epoch < s.epoch
    || (s.epoch == epoch && (generation < s.client.guard.generation
                             || (s.client.guard.generation == generation && s.client.guard.lastKey == None)))
  }

  lemma QuietThreadsLeaveClient(s: State, id: nat, o: Oracle)
    requires id in s.threads && !Sends(s, StepThread(id, o))
    ensures Advance(s, id, o).client == s.client && Advance(s, id, o).epoch == s.epoch
  {}

  lemma EntrySendFollows(s: State, id: nat, o: Oracle)
    requires Inv(s) && id in s.threads && s.threads[id].job.EntryJob? && s.threads[id].pc.Sending?
    ensures SendEntry(s, id, o).epoch == s.epoch && Follows(s.client.guard, SendEntry(s, id, o).client.guard)
  {
    var t := s.threads[id];
    var final := AuthorizeEntry(s.auth, t.grant, t.view, t.job.payload, o.now);
    SendKeeps(s.client, t.expected, EntryGate(o, t.job.payload.intent.volume.value),
              if final.Err? then Some(Denied(final.error)) else None, o.script);
  }

  lemma ExitSendFollows(s: State, id: nat, o: Oracle)
    requires Inv(s) && id in s.threads && HasExit(s.threads[id])
    ensures SendExit(s, id, o).epoch == s.epoch && Follows(s.client.guard, SendExit(s, id, o).client.guard)
  {
    var t := s.threads[id];
    var final := AuthorizeExit(s.auth, t.grant, t.view, t.job.op, t.job.target, o.now);
    SendKeeps(s.client, t.expected,
              if ExitProven(t.pc.x, o.exposed, t.job.op, o.request) then None else Some(ScopeConflict),
              if final.Err? then Some(Denied(final.error)) else None, o.script);
  }

  lemma ClientFollows(s: State, e: Event)
    requires Inv(s)
    ensures s.epoch < Step(s, e).epoch
            || (s.epoch == Step(s, e).epoch && Follows(s.client.guard, Step(s, e).client.guard))
  {
    if e.UseClient? {
      ApplyKeeps(s.client, e.use);
    } else if e.StepThread? && e.id in s.threads {
      if !Sends(s, e) {
        QuietThreadsLeaveClient(s, e.id, e.oracle);
      } else {
        SendFollows(s, e);
      }
    }
  }

  lemma SendFollows(s: State, e: Event)
    requires Inv(s) && Sends(s, e)
    ensures s.epoch == Step(s, e).epoch && Follows(s.client.guard, Step(s, e).client.guard)
  {
    if s.threads[e.id].job.EntryJob? {
      EntrySendFollows(s, e.id, e.oracle);
      assert Step(s, e) == SendEntry(s, e.id, e.oracle);
    } else {
      ExitSendFollows(s, e.id, e.oracle);
      assert Step(s, e) == SendExit(s, e.id, e.oracle);
    }
  }

  /** A terminal call whose function raised retires the generation it ran under. */
  lemma RaiseRetires(s: State, script: CallScript<int>)
    requires Inv(s) && Call(s.client, script).1.ActionRaised?
    ensures Retired(Step(s, UseClient(Invoke(script))), s.epoch,
                    EnsureConnected(s.client, script.ensure).0.guard.generation)
  {
    EnsureKeeps(s.client, script.ensure);
  }

  /** So does a guarded send that was refused inside its callback, or whose order_send raised. */
  lemma RefusedSendRetires(s: State, id: nat, o: Oracle)
    requires Inv(s) && id in s.threads && s.threads[id].job.EntryJob? && s.threads[id].pc.Sending?
    requires EnsureConnected(s.client, o.script.ensure).1.Established?
    requires !EntryReport(s, s.threads[id], o).invoked || o.script.reply.SendRaised?
    ensures Retired(SendEntry(s, id, o), s.epoch, EnsureConnected(s.client, o.script.ensure).0.guard.generation)
  {}

  /** The same holds for a cancel or close. */
  lemma RefusedExitRetires(s: State, id: nat, o: Oracle)
    requires Inv(s) && id in s.threads && HasExit(s.threads[id]) && !ExitPrecluded(s.threads[id], o)
    requires EnsureConnected(s.client, o.script.ensure).1.Established?
    requires !ExitReport(s, s.threads[id], o).invoked || o.script.reply.SendRaised?
    ensures Retired(SendExit(s, id, o), s.epoch, EnsureConnected(s.client, o.script.ensure).0.guard.generation)
  {}

  /** After that no thread ever sends again under a grant of that generation, not even one already past its checks. */
  lemma {:induction false} RetiredStaysSilent(s: State, events: seq<Event>, epoch: nat, generation: nat)
    requires Inv(s) && Retired(s, epoch, generation)
    ensures var s' := RunEvents(s, events);
            && Retired(s', epoch, generation)
            && s.sends <= s'.sends
            && forall i | |s.sends| <= i < |s'.sends| :: Silent(s', i, epoch, generation)
  {
    if events != [] {
      var m := RunEvents(s, events[..|events| - 1]);
      RetiredStaysSilent(s, events[..|events| - 1], epoch, generation);
      RunIsMonotone(s, events[..|events| - 1]);
      SilentStep(m, events[|events| - 1], epoch, generation);
      AllStaySilent(m, Step(m, events[|events| - 1]), |s.sends|, epoch, generation);
    }
  }

  lemma AllStaySilent(m: State, n: State, first: nat, epoch: nat, generation: nat)
    requires first <= |m.sends| && Later(m, n) && m.sends <= n.sends
    requires forall i | first <= i < |m.sends| :: Silent(m, i, epoch, generation)
    requires forall i | |m.sends| <= i < |n.sends| :: Silent(n, i, epoch, generation)
    ensures forall i | first <= i < |n.sends| :: Silent(n, i, epoch, generation)
  {
    forall i | first <= i < |m.sends| ensures Silent(n, i, epoch, generation) {
      SilentStays(m, n, i, epoch, generation);
    }
  }

  // The send i is not under a grant of the retired generation.
  predicate Silent(s: State, i: nat, epoch: nat, generation: nat)
    requires i < |s.sends|
  {
    && s.sends[i].grant in s.auth.grants
    && var a := s.auth.grants[s.sends[i].grant].artifact;
    !(a.epoch == epoch && a.generation <= generation)
  }

  lemma SilentStays(s: State, n: State, i: nat, epoch: nat, generation: nat)
    requires i < |s.sends| && Silent(s, i, epoch, generation) && Later(s, n) && s.sends <= n.sends
    ensures Silent(n, i, epoch, generation)
  {
    assert GrantRises(s.auth.grants[s.sends[i].grant], n.auth.grants[s.sends[i].grant]);
  }

  lemma SilentStep(m: State, e: Event, epoch: nat, generation: nat)
    requires Inv(m) && Retired(m, epoch, generation)
    ensures var n := Step(m, e);
            && Retired(n, epoch, generation) && Later(m, n) && m.sends <= n.sends
            && forall i | |m.sends| <= i < |n.sends| :: Silent(n, i, epoch, generation)
  {
    StepKeepsInv(m, e);
    ClientFollows(m, e);
    EverySendIsVerified(m, e);
    var n := Step(m, e);
    forall i | |m.sends| <= i < |n.sends| ensures Silent(n, i, epoch, generation) {
      VerifiedIsSilent(m, n, e, i, epoch, generation);
    }
  }

  lemma VerifiedIsSilent(m: State, n: State, e: Event, i: nat, epoch: nat, generation: nat)
    requires Retired(m, epoch, generation) && Later(m, n) && i < |n.sends| && Verified(m, e, n.sends[i])
    ensures Silent(n, i, epoch, generation)
  {
    assert n.sends[i].grant in m.auth.grants;
    assert GrantRises(m.auth.grants[n.sends[i].grant], n.auth.grants[n.sends[i].grant]);
  }
}
