/** A grant closes only if it may close and was claimed, and it is claimed only if it may place. */
module ExecutionPermissions {
  import opened Wrappers
  import opened Orders
  import opened Authorization
  import opened Execution
  import opened ExecutionSafety

  predicate GrantPermitted(g: Grant) {
    && (g.claim.Some? ==> Place in g.artifact.permissions)
    && (g.orderId.Some? || g.positionId.Some? ==> g.claim.Some?)
  }

  predicate Permitted(auth: AuthDb) {
    && (forall g | g in auth.grants :: GrantPermitted(auth.grants[g]))
    && (forall k | k in auth.exits && k.op.CloseExit? ::
        k.grant in auth.grants && Close in auth.grants[k.grant].artifact.permissions)
  }

  lemma ProvisionKeeps(auth: AuthDb, a: Artifact)
    requires Permitted(auth)
    ensures Permitted(Provision(auth, a).0)
  {}

  lemma ClaimKeeps(auth: AuthDb, id: string, v: SessionView, p: Payload, now: int)
    requires Permitted(auth)
    ensures Permitted(ClaimEntry(auth, id, v, p, now).0)
  {}

  lemma BindKeeps(auth: AuthDb, id: string, v: SessionView, order: Option<int>, position: Option<int>)
    requires Permitted(auth)
    ensures Permitted(BindExposure(auth, id, v, order, position).0)
  {}

  lemma ReserveKeeps(auth: AuthDb, id: string, v: SessionView, op: ExitOp, target: int, now: int)
    requires Permitted(auth)
    ensures Permitted(ReserveExit(auth, id, v, op, target, now).0)
  {}

  lemma DisableKeeps(auth: AuthDb, id: string, reason: string)
    requires Permitted(auth)
    ensures Permitted(DisableEntry(auth, id, reason))
  {}

  lemma FinishKeeps(auth: AuthDb, key: ExitKey, exit: ExitState)
    requires Permitted(auth)
    ensures Permitted(FinishExit(auth, key, exit))
  {
    var d := if key in auth.exits && auth.exits[key].ExitPending? then auth.(exits := auth.exits[key := exit])
      else auth;
    DisableKeeps(d, key.grant, if exit.ExitFailed? then "exit_failed" else "exit_indeterminate");
  }

  // ---- Steps ----

  lemma StoreKeeps(s: State, id: nat)
    requires Permitted(s.auth) && id in s.threads && s.threads[id].pc.Storing? && s.threads[id].pc != DONE
    ensures Permitted(Store(s, id).auth)
  {
    var t := s.threads[id];
    match t.pc.todo[0]
    case FinishAs(state, outcome) =>
    case BindOrder(order) => BindKeeps(s.auth, t.grant, t.view, Some(order), None);
    case Disable(reason) => DisableKeeps(s.auth, t.grant, reason);
    case FinishExitAs(exit) =>
      if t.job.ExitJob? {
        FinishKeeps(s.auth, ExitKey(t.grant, t.job.op, t.job.target), exit);
      }
  }

  lemma EntryStepsKeep(s: State, id: nat, o: Oracle)
    requires Permitted(s.auth) && id in s.threads && s.threads[id].job.EntryJob?
    ensures Permitted(Claim(s, id, o).auth) && Prepare(s, id, o).auth == s.auth && SendEntry(s, id, o).auth == s.auth
    ensures s.threads[id].pc.Reserving? ==> Reserve(s, id).auth == s.auth
  {
    var t := s.threads[id];
    ClaimKeeps(s.auth, t.grant, t.view, t.job.payload, o.now);
  }

  lemma BindingStepsKeep(s: State, id: nat)
    requires Permitted(s.auth) && id in s.threads
    ensures s.threads[id].pc.BindingOrder? ==> Permitted(BindLocated(s, id).auth)
    ensures s.threads[id].pc.BindingPosition? ==> Permitted(BindPosition(s, id).auth)
  {
    var t := s.threads[id];
    if t.pc.BindingOrder? {
      BindKeeps(s.auth, t.grant, t.view, Some(t.pc.order), None);
    } else if t.pc.BindingPosition? {
      BindKeeps(s.auth, t.grant, t.view, None, Some(t.pc.x.position));
    }
  }

  lemma ExitStepsKeep(s: State, id: nat, o: Oracle)
    requires Permitted(s.auth) && id in s.threads && s.threads[id].job.ExitJob?
    ensures s.threads[id].pc.Examining? ==> Examine(s, id).auth == s.auth
    ensures s.threads[id].pc.Exposing? ==> Expose(s, id, o).auth == s.auth
    ensures s.threads[id].pc.ReservingExit? ==> Permitted(TakeExit(s, id, o).auth)
    ensures s.threads[id].pc.SendingExit? ==> SendExit(s, id, o).auth == s.auth
  {
    var t := s.threads[id];
    ReserveKeeps(s.auth, t.grant, t.view, t.job.op, t.job.target, o.now);
  }

  lemma AdvanceKeeps(s: State, id: nat, o: Oracle)
    requires Permitted(s.auth) && id in s.threads
    ensures Permitted(Advance(s, id, o).auth)
  {
    var t := s.threads[id];
    if t.pc.Storing? {
      if t.pc != DONE {
        StoreKeeps(s, id);
      }
    } else if t.pc.Claiming? || t.pc.Reserving? || t.pc.Preparing? || t.pc.Sending? {
      if t.job.EntryJob? {
        EntryStepsKeep(s, id, o);
      }
    } else if t.pc.BindingOrder? || t.pc.BindingPosition? {
      BindingStepsKeep(s, id);
    } else if t.job.ExitJob? && !t.pc.Scoping? && !t.pc.Locating? && !t.pc.Looking? {
      ExitStepsKeep(s, id, o);
    }
  }

  lemma {:induction false} RunKeepsPermitted(c: Config, events: seq<Event>)
    ensures Permitted(RunEvents(Initial(c), events).auth)
  {
    if events != [] {
      var s, e := RunEvents(Initial(c), events[..|events| - 1]), events[|events| - 1];
      RunKeepsPermitted(c, events[..|events| - 1]);
      if e.StepThread? {
        if e.id in s.threads {
          AdvanceKeeps(s, e.id, e.oracle);
        }
      } else if e.ProvisionGrant? {
        ProvisionKeeps(s.auth, e.artifact);
      } else if e.KillEntry? {
        DisableKeeps(s.auth, e.grant, e.reason);
      }
    }
  }

  /** In every run, a grant under which a close was sent may place and may close. */
  lemma CloseNeedsBothPermissions(c: Config, events: seq<Event>, x: Send)
    requires x in RunEvents(Initial(c), events).sends && x.op.CloseSend?
    ensures var grants := RunEvents(Initial(c), events).auth.grants;
            x.grant in grants && {Place, Close} <= grants[x.grant].artifact.permissions
  {
    var s := RunEvents(Initial(c), events);
    RunKeepsInv(c, events);
    RunKeepsPermitted(c, events);
    assert SendOk(s.auth, s.idem, x);
    assert GrantPermitted(s.auth.grants[x.grant]);
    var key := ExitKey(x.grant, CloseExit, s.auth.grants[x.grant].positionId.value);
    assert key in s.auth.exits && key.op.CloseExit?;
  }
}
