/** The signed exposure a grant's sends create at a broker that never overfills and reports its deals truthfully. */
module ExecutionExposure {
  import opened Authorization
  import opened Adapter
  import opened Execution
  import opened ExecutionSafety

  // ---- The broker's book ----

  function Signed(d: RawDeal): real { if d.kind == 0 then d.volume else -d.volume }

  // The net position all deals of a grant's sends add up to.
  function Net(deals: seq<BrokerDeal>, sends: seq<Send>, grant: string): real {
    if deals == [] then 0.0
    else
      var b := deals[|deals| - 1];
      Net(deals[..|deals| - 1], sends, grant)
      + (if b.send.Some? && b.send.value < |sends| && sends[b.send.value].grant == grant then Signed(b.deal) else 0.0)
  }

  // The deals of one position, in the broker's order.
  function PositionDeals(deals: seq<BrokerDeal>, position: int): seq<RawDeal> {
    if deals == [] then []
    else PositionDeals(deals[..|deals| - 1], position)
         + (if deals[|deals| - 1].deal.position == position then [deals[|deals| - 1].deal] else [])
  }

  predicate DealOk(sends: seq<Send>, b: BrokerDeal) {
    && (b.send.None? ==> b.deal.comment == OtherComment)
    && (b.send.Some? ==>
          && b.send.value < |sends| && !sends[b.send.value].op.CancelSend?
          && b.deal.kind == sends[b.send.value].kind && 0.0 < b.deal.volume
          && b.deal.comment == if sends[b.send.value].op.EntrySend? then Correlation(sends[b.send.value].clientOrderId)
            else OtherComment)
  }

  predicate BookOk(s: State) {
    && (forall b | b in s.deals :: DealOk(s.sends, b))
    && (forall i | 0 <= i < |s.sends| && !s.sends[i].op.CancelSend? :: FilledBy(s.deals, i) <= s.sends[i].volume)
  }

  lemma {:induction false} UnfilledBeforeSent(deals: seq<BrokerDeal>, sends: seq<Send>)
    requires forall b | b in deals :: DealOk(sends, b)
    ensures FilledBy(deals, |sends|) == 0.0
  {
    if deals != [] {
      UnfilledBeforeSent(deals[..|deals| - 1], sends);
      assert deals[|deals| - 1] in deals;
    }
  }

  // ---- Where a close may be sent ----

  predicate EntryOf(s: State, i: nat, grant: string) {
    i < |s.sends| && s.sends[i].op.EntrySend? && s.sends[i].grant == grant
  }

  // The close j asks for no more than has been filled of the entry sent for its client order, in the opposite
  // direction.
  predicate ClosesEntry(s: State, i: nat, j: nat)
    requires j < |s.sends|
  {
    && i < |s.sends| && s.sends[i].op.EntrySend? && s.sends[i].clientOrderId == s.sends[j].clientOrderId
    && 0.0 < s.sends[j].volume <= FilledBy(s.deals, i)
    && s.sends[i].kind in {0, 1} && s.sends[j].kind == 1 - s.sends[i].kind
  }

  ghost predicate ClosesOk(s: State) {
    forall j | 0 <= j < |s.sends| && s.sends[j].op.CloseSend? :: exists i: nat :: ClosesEntry(s, i, j)
  }

  predicate KindsOk(s: State) {
    forall x | x in s.sends && x.op.EntrySend? :: x.kind in {0, 1}
  }

  // The assumption on reads: the deals of the position are the broker's own, and its side does not change between two
  // reads inside one callback.
  predicate Truthful(s: State, e: Event) {
    e.StepThread? && e.id in s.threads && HasExit(s.threads[e.id]) && s.threads[e.id].job.op.CloseExit? ==>
      var x, r := s.threads[e.id].pc.x, e.oracle.exposed;
      && (r.deals.Some? ==> r.deals.value == PositionDeals(s.deals, x.position))
      && (r.positions.Some? && r.current.Some? && |r.positions.value| == 1 && |r.current.value| == 1 ==>
            r.positions.value[0].kind == r.current.value[0].kind)
  }

  lemma {:induction false} PositionDealsComeFromBook(deals: seq<BrokerDeal>, position: int, d: RawDeal)
    requires d in PositionDeals(deals, position)
    ensures exists b :: b in deals && b.deal == d
  {
    if d in PositionDeals(deals[..|deals| - 1], position) {
      PositionDealsComeFromBook(deals[..|deals| - 1], position, d);
      var b :| b in deals[..|deals| - 1] && b.deal == d;
      assert b in deals;
    } else {
      assert deals[|deals| - 1] in deals;
    }
  }

  // Deals that all carry one client order's token are fills of its one entry send.
  lemma {:induction false} TokenDealsFillTheEntry(s: State, deals: seq<BrokerDeal>, position: int, client: string,
                                                  i: nat)
    requires forall b | b in deals :: DealOk(s.sends, b)
    requires forall d | d in PositionDeals(deals, position) :: d.comment == Correlation(client)
    requires i < |s.sends| && s.sends[i].op.EntrySend? && s.sends[i].clientOrderId == client
    requires forall k, l | 0 <= k < l < |s.sends| :: SendsApart(s.sends[k], s.sends[l])
    ensures TotalVolume(PositionDeals(deals, position)) <= FilledBy(deals, i)
  {
    if deals != [] {
      var most, last := deals[..|deals| - 1], deals[|deals| - 1];
      assert last in deals;
      forall d | d in PositionDeals(most, position) ensures d.comment == Correlation(client) {
        assert d in PositionDeals(deals, position);
      }
      TokenDealsFillTheEntry(s, most, position, client, i);
      if last.deal.position == position {
        assert PositionDeals(deals, position)[|PositionDeals(most, position)|] == last.deal;
        assert last.deal in PositionDeals(deals, position);
        assert PositionDeals(deals, position)[..|PositionDeals(deals, position)| - 1] == PositionDeals(most, position);
        var k := last.send.value;
        assert !SendsApart(s.sends[k], s.sends[i]) && !SendsApart(s.sends[i], s.sends[k]);
        assert k == i;
      } else {
        assert PositionDeals(deals, position) == PositionDeals(most, position);
      }
    }
  }

  predicate Closes(s: State, i: nat, client: string, volume: real, kind: int)
    requires i < |s.sends|
  {
    && s.sends[i].op.EntrySend? && s.sends[i].clientOrderId == client
    && 0.0 < volume <= FilledBy(s.deals, i) && s.sends[i].kind in {0, 1} && kind == 1 - s.sends[i].kind
  }

  /** A close is invoked only for what has been filled of the single entry sent for its client order, under whichever
      grant; it asks for its own grant's volume, in the opposite direction. When both grants are authorized for one
      volume, that is the whole of a completely filled entry. */
  lemma CloseOnlyOfFilledEntry(s: State, id: nat, o: Oracle)
    requires Inv(s) && BookOk(s) && KindsOk(s)
    requires id in s.threads && HasExit(s.threads[id]) && s.threads[id].job.op.CloseExit?
    requires Truthful(s, StepThread(id, o)) && ExitReport(s, s.threads[id], o).invoked
    ensures exists i: nat :: i < |s.sends| && FilledBy(s.deals, i) <= s.sends[i].volume
              && Closes(s, i, s.threads[id].pc.x.clientOrderId, o.request.volume, o.request.kind)
    ensures var g := s.threads[id].grant;
            g in s.auth.grants && o.request.volume == s.auth.grants[g].artifact.volume
            && s.threads[id].pc.x.clientOrderId == s.auth.grants[g].artifact.clientOrderId
  {
    var t := s.threads[id];
    var x := t.pc.x;
    assert ThreadOk(s, t);
    ExitReportOnGrant(s, id, o);
    var deals := o.exposed.deals.value;
    var p := o.exposed.positions.value[0];
    var d := deals[0];
    assert d in deals && OwnDeal(x, p.kind, d);
    PositionDealsComeFromBook(s.deals, x.position, d);
    var b :| b in s.deals && b.deal == d;
    assert DealOk(s.sends, b);
    var i := b.send.value;
    TokenDealsFillTheEntry(s, s.deals, x.position, x.clientOrderId, i);
    assert Closes(s, i, x.clientOrderId, o.request.volume, o.request.kind);
  }

  // ---- One step ----

  lemma EntryLeavesBook(s: State, id: nat, o: Oracle)
    requires id in s.threads && s.threads[id].job.EntryJob?
    ensures Claim(s, id, o).deals == s.deals && Prepare(s, id, o).deals == s.deals
    ensures SendEntry(s, id, o).deals == s.deals
    ensures s.threads[id].pc.Reserving? ==> Reserve(s, id).deals == s.deals
  {}

  lemma ExitLeavesBook(s: State, id: nat, o: Oracle)
    requires id in s.threads && s.threads[id].job.ExitJob?
    ensures s.threads[id].pc.Examining? ==> Examine(s, id).deals == s.deals
    ensures s.threads[id].pc.Exposing? ==> Expose(s, id, o).deals == s.deals
    ensures s.threads[id].pc.ReservingExit? ==> TakeExit(s, id, o).deals == s.deals
    ensures s.threads[id].pc.SendingExit? ==> SendExit(s, id, o).deals == s.deals
  {}

  lemma OthersLeaveBook(s: State, id: nat, o: Oracle)
    requires id in s.threads
    ensures TakeScope(s, id).deals == s.deals
    ensures s.threads[id].pc.Locating? ==> Locate(s, id, o).deals == s.deals
    ensures s.threads[id].pc.BindingOrder? ==> BindLocated(s, id).deals == s.deals
    ensures s.threads[id].pc.BindingPosition? ==> BindPosition(s, id).deals == s.deals
    ensures s.threads[id].pc.Looking? ==> LookUp(s, id, o).deals == s.deals
    ensures s.threads[id].pc.Storing? ==> Store(s, id).deals == s.deals
  {}

  lemma QuietThreadsLeaveBook(s: State, id: nat, o: Oracle)
    requires id in s.threads
    ensures Advance(s, id, o).deals == s.deals
  {
    OthersLeaveBook(s, id, o);
    if s.threads[id].job.EntryJob? {
      EntryLeavesBook(s, id, o);
    } else if s.threads[id].job.ExitJob? {
      ExitLeavesBook(s, id, o);
    }
  }

  lemma NewSendKeepsBook(s: State, s': State, x: Send)
    requires BookOk(s) && s'.deals == s.deals && s'.sends == s.sends + [x]
    requires !x.op.CancelSend? ==> 0.0 <= x.volume
    ensures BookOk(s')
  {
    UnfilledBeforeSent(s.deals, s.sends);
    forall b | b in s'.deals ensures DealOk(s'.sends, b) {
      assert DealOk(s.sends, b);
    }
  }

  lemma NewSendKeepsCloses(s: State, s': State, x: Send)
    requires ClosesOk(s) && s'.deals == s.deals && s'.sends == s.sends + [x]
    requires x.op.CloseSend? ==> exists i: nat :: i < |s.sends| && Closes(s, i, x.clientOrderId, x.volume, x.kind)
    ensures ClosesOk(s')
  {
    forall j | 0 <= j < |s'.sends| && s'.sends[j].op.CloseSend? ensures exists i: nat :: ClosesEntry(s', i, j) {
      if j < |s.sends| {
        var i: nat :| ClosesEntry(s, i, j);
        assert ClosesEntry(s', i, j);
      } else {
        var i: nat :| i < |s.sends| && Closes(s, i, x.clientOrderId, x.volume, x.kind);
        assert ClosesEntry(s', i, j);
      }
    }
  }

  lemma FillKeepsBook(s: State, e: Event)
    requires BookOk(s) && ClosesOk(s) && (e.Fill? || e.ForeignDeal?)
    ensures BookOk(Step(s, e)) && ClosesOk(Step(s, e)) && Step(s, e).sends == s.sends
  {
    var s' := Step(s, e);
    if |s'.deals| > |s.deals| {
      var b := s'.deals[|s.deals|];
      assert s'.deals == s.deals + [b] && s'.deals[..|s'.deals| - 1] == s.deals;
      MoreDealsKeepCloses(s, s');
    }
  }

  lemma MoreDealsKeepCloses(s: State, s': State)
    requires ClosesOk(s) && s'.sends == s.sends && |s'.deals| == |s.deals| + 1 && s'.deals[..|s.deals|] == s.deals
    requires forall i: nat, j: nat | j < |s.sends| && ClosesEntry(s, i, j) :: ClosesEntry(s', i, j)
    ensures ClosesOk(s')
  {
    forall j | 0 <= j < |s'.sends| && s'.sends[j].op.CloseSend? ensures exists i: nat :: ClosesEntry(s', i, j) {
      var i: nat :| ClosesEntry(s, i, j);
      assert ClosesEntry(s', i, j);
    }
  }

  ghost predicate Balanced(s: State) { BookOk(s) && ClosesOk(s) && KindsOk(s) }

  lemma EntrySendStaysBalanced(s: State, id: nat, o: Oracle)
    requires Inv(s) && Balanced(s) && id in s.threads && s.threads[id].job.EntryJob? && s.threads[id].pc.Sending?
    requires forall g | g in s.auth.grants :: 0.0 < s.auth.grants[g].artifact.volume
    ensures Balanced(SendEntry(s, id, o))
  {
    var s' := SendEntry(s, id, o);
    assert s.sends + [] == s.sends;
    if EntryReport(s, s.threads[id], o).invoked {
      EntryReportOnGrant(s, id, o);
      var x := s'.sends[|s.sends|];
      assert s'.sends == s.sends + [x];
      NewSendKeepsBook(s, s', x);
      NewSendKeepsCloses(s, s', x);
    } else {
      SameBookStaysBalanced(s, s');
    }
  }

  lemma ExitSendStaysBalanced(s: State, id: nat, o: Oracle)
    requires Inv(s) && Balanced(s) && id in s.threads && HasExit(s.threads[id])
    requires Truthful(s, StepThread(id, o))
    ensures Balanced(SendExit(s, id, o))
  {
    var t := s.threads[id];
    var s' := SendExit(s, id, o);
    assert s.sends + [] == s.sends;
    if |s'.sends| > |s.sends| {
      ExitReportOnGrant(s, id, o);
      var x := s'.sends[|s.sends|];
      assert s'.sends == s.sends + [x];
      if t.job.op.CloseExit? {
        CloseOnlyOfFilledEntry(s, id, o);
      }
      NewSendKeepsBook(s, s', x);
      NewSendKeepsCloses(s, s', x);
    } else {
      SameBookStaysBalanced(s, s');
    }
  }

  predicate PositiveVolumes(auth: AuthDb) {
    forall g | g in auth.grants :: 0.0 < auth.grants[g].artifact.volume
  }

  lemma {:induction false} VolumesArePositive(c: Config, events: seq<Event>)
    ensures PositiveVolumes(RunEvents(Initial(c), events).auth)
  {
    if events != [] {
      var s := RunEvents(Initial(c), events[..|events| - 1]);
      var e := events[|events| - 1];
      VolumesArePositive(c, events[..|events| - 1]);
      RunKeepsInv(c, events[..|events| - 1]);
      StepKeepsInv(s, e);
      OnlyProvisionAddsGrants(s, e);
    }
  }

  lemma OnlyProvisionAddsGrants(s: State, e: Event)
    requires Inv(s) && PositiveVolumes(s.auth)
    ensures PositiveVolumes(Step(s, e).auth)
  {
    StepKeepsInv(s, e);
    if e.ProvisionGrant? {
      ProvisionKeepsVolumes(s.auth, e.artifact);
    } else {
      if e.StepThread? && e.id in s.threads {
        ThreadsAddNoGrants(s, e.id, e.oracle);
      }
      RisingKeepsVolumes(s.auth, Step(s, e).auth);
    }
  }

  lemma ProvisionKeepsVolumes(db: AuthDb, a: Artifact)
    requires PositiveVolumes(db)
    ensures PositiveVolumes(Provision(db, a).0)
  {}

  lemma RisingKeepsVolumes(db: AuthDb, after: AuthDb)
    requires PositiveVolumes(db) && Rises(db, after) && after.grants.Keys == db.grants.Keys
    ensures PositiveVolumes(after)
  {
    forall g | g in after.grants ensures 0.0 < after.grants[g].artifact.volume {
      assert GrantRises(db.grants[g], after.grants[g]);
    }
  }

  lemma StoreAddsNoGrants(s: State, id: nat)
    requires id in s.threads && s.threads[id].pc.Storing?
    ensures Store(s, id).auth.grants.Keys == s.auth.grants.Keys
  {}

  lemma EntryAddsNoGrants(s: State, id: nat, o: Oracle)
    requires id in s.threads && s.threads[id].job.EntryJob?
    ensures Claim(s, id, o).auth.grants.Keys == s.auth.grants.Keys && Prepare(s, id, o).auth == s.auth
    ensures SendEntry(s, id, o).auth == s.auth
  {}

  lemma ExitAddsNoGrants(s: State, id: nat, o: Oracle)
    requires id in s.threads
    ensures s.threads[id].pc.BindingOrder? ==> BindLocated(s, id).auth.grants.Keys == s.auth.grants.Keys
    ensures s.threads[id].pc.BindingPosition? ==> BindPosition(s, id).auth.grants.Keys == s.auth.grants.Keys
    ensures s.threads[id].pc.ReservingExit? && s.threads[id].job.ExitJob?
            ==> TakeExit(s, id, o).auth.grants.Keys == s.auth.grants.Keys
    ensures HasExit(s.threads[id]) ==> SendExit(s, id, o).auth == s.auth
  {}

  lemma ThreadsAddNoGrants(s: State, id: nat, o: Oracle)
    requires id in s.threads
    ensures Advance(s, id, o).auth.grants.Keys == s.auth.grants.Keys
  {
    var t := s.threads[id];
    if t.pc.Storing? {
      StoreAddsNoGrants(s, id);
    } else if t.pc.Claiming? || t.pc.Preparing? || t.pc.Sending? {
      if t.job.EntryJob? {
        EntryAddsNoGrants(s, id, o);
      }
    } else if t.pc.BindingOrder? || t.pc.BindingPosition? || t.pc.ReservingExit? || t.pc.SendingExit? {
      ExitAddsNoGrants(s, id, o);
    }
  }

  lemma StepStaysBalanced(s: State, e: Event)
    requires Inv(s) && Balanced(s) && PositiveVolumes(s.auth) && Truthful(s, e)
    ensures Balanced(Step(s, e))
  {
    if e.Fill? || e.ForeignDeal? {
      FillKeepsBook(s, e);
    } else if Sends(s, e) {
      SendStaysBalanced(s, e);
    } else {
      QuietStaysBalanced(s, e);
    }
  }

  lemma SendStaysBalanced(s: State, e: Event)
    requires Inv(s) && Balanced(s) && PositiveVolumes(s.auth) && Truthful(s, e) && Sends(s, e)
    ensures Balanced(Step(s, e))
  {
    if s.threads[e.id].job.EntryJob? {
      EntrySendStaysBalanced(s, e.id, e.oracle);
      assert Step(s, e) == SendEntry(s, e.id, e.oracle);
    } else {
      ExitSendStaysBalanced(s, e.id, e.oracle);
      assert Step(s, e) == SendExit(s, e.id, e.oracle);
    }
  }

  lemma QuietStaysBalanced(s: State, e: Event)
    requires Inv(s) && Balanced(s) && !Sends(s, e) && !e.Fill? && !e.ForeignDeal?
    ensures Balanced(Step(s, e))
  {
    if e.StepThread? && e.id in s.threads {
      QuietThreadsLeaveBook(s, e.id, e.oracle);
    }
    SameBookStaysBalanced(s, Step(s, e));
  }

  lemma SameBookStaysBalanced(s: State, s': State)
    requires Balanced(s) && s'.deals == s.deals && s'.sends == s.sends
    ensures Balanced(s')
  {
    forall j | 0 <= j < |s'.sends| && s'.sends[j].op.CloseSend? ensures exists i: nat :: ClosesEntry(s', i, j) {
      var i: nat :| ClosesEntry(s, i, j);
      assert ClosesEntry(s', i, j);
    }
  }

  // ---- Runs ----

  // Every close reads the broker's own history.
  predicate TruthfulRun(c: Config, events: seq<Event>) {
    forall k | 0 <= k < |events| :: Truthful(RunEvents(Initial(c), events[..k]), events[k])
  }

  lemma TruthfulPrefix(c: Config, events: seq<Event>)
    requires TruthfulRun(c, events) && events != []
    ensures TruthfulRun(c, events[..|events| - 1])
  {
    var before := events[..|events| - 1];
    forall k | 0 <= k < |before| ensures Truthful(RunEvents(Initial(c), before[..k]), before[k]) {
      assert before[..k] == events[..k];
    }
  }

  lemma {:induction false} RunStaysBalanced(c: Config, events: seq<Event>)
    requires TruthfulRun(c, events)
    ensures Balanced(RunEvents(Initial(c), events))
  {
    if events != [] {
      var before := events[..|events| - 1];
      TruthfulPrefix(c, events);
      RunStaysBalanced(c, before);
      RunKeepsInv(c, before);
      VolumesArePositive(c, before);
      assert events[..|before|] == before;
      StepStaysBalanced(RunEvents(Initial(c), before), events[|events| - 1]);
    }
  }

  // What a grant's deals add up to, when its only filling sends are the entry i and perhaps the close j.
  lemma {:induction false} NetOfEntryAndClose(deals: seq<BrokerDeal>, sends: seq<Send>, grant: string, i: nat, j: nat)
    requires forall b | b in deals :: DealOk(sends, b)
    requires i < |sends| && sends[i].grant == grant && sends[i].kind in {0, 1}
    requires forall k | 0 <= k < |sends| && sends[k].grant == grant && !sends[k].op.CancelSend? :: k == i || k == j
    requires j < |sends| ==> j != i && sends[j].grant == grant && sends[j].kind == 1 - sends[i].kind
    ensures var d := if sends[i].kind == 0 then 1.0 else -1.0;
            d * Net(deals, sends, grant) == FilledBy(deals, i) - (if j < |sends| then FilledBy(deals, j) else 0.0)
  {
    if deals != [] {
      NetOfEntryAndClose(deals[..|deals| - 1], sends, grant, i, j);
      assert deals[|deals| - 1] in deals;
    }
  }

  lemma {:induction false} NoFillNoNet(deals: seq<BrokerDeal>, sends: seq<Send>, grant: string)
    requires forall b | b in deals :: DealOk(sends, b)
    requires forall x | x in sends && x.grant == grant :: x.op.CancelSend?
    ensures Net(deals, sends, grant) == 0.0
  {
    if deals != [] {
      NoFillNoNet(deals[..|deals| - 1], sends, grant);
      assert deals[|deals| - 1] in deals;
    }
  }

  lemma {:induction false} FilledIsNonNegative(deals: seq<BrokerDeal>, sends: seq<Send>, i: nat)
    requires forall b | b in deals :: DealOk(sends, b)
    ensures 0.0 <= FilledBy(deals, i)
  {
    if deals != [] {
      FilledIsNonNegative(deals[..|deals| - 1], sends, i);
      assert deals[|deals| - 1] in deals;
    }
  }

  // ---- The bound ----

  predicate EntryBound(s: State, grant: string, i: nat)
    requires i < |s.sends|
  {
    && grant in s.auth.grants
    && var d := if s.sends[i].kind == 0 then 1.0 else -1.0;
    0.0 <= d * Net(s.deals, s.sends, grant) <= s.auth.grants[grant].artifact.volume
  }

  predicate ClosedBy(s: State, grant: string, j: nat) {
    j < |s.sends| && s.sends[j].op.CloseSend? && s.sends[j].grant == grant
  }

  /** The net exposure of a grant's sends is zero without an entry of its own; with one it lies between zero and the
      authorized volume in the entry's direction, and a completely filled close brings it back to zero. */
  ghost predicate WithinGrant(s: State, grant: string) {
    && ((exists i: nat :: EntryOf(s, i, grant)) || Net(s.deals, s.sends, grant) == 0.0)
    && (forall i: nat | EntryOf(s, i, grant) :: EntryBound(s, grant, i))
    && (forall j: nat | ClosedBy(s, grant, j) && FilledBy(s.deals, j) == s.sends[j].volume ::
        Net(s.deals, s.sends, grant) == 0.0)
  }

  /** In every run that reads the broker's own history, the exposure of a grant stays within it exactly when the grant
      sent its own entry, or nothing has been filled of a close it sent. */
  lemma WithinGrantIff(c: Config, events: seq<Event>, grant: string)
    requires TruthfulRun(c, events)
    ensures var s := RunEvents(Initial(c), events);
            (WithinGrant(s, grant) <==>
              || (exists i: nat :: EntryOf(s, i, grant))
              || (forall j: nat | ClosedBy(s, grant, j) :: FilledBy(s.deals, j) == 0.0))
  {
    var s := RunEvents(Initial(c), events);
    RunKeepsInv(c, events);
    RunStaysBalanced(c, events);
    if i: nat :| EntryOf(s, i, grant) {
      EntryKeepsWithin(s, grant, i);
    } else {
      OnlyFillsMatter(s, grant);
    }
  }

  // The only grant in the table for its client order.
  predicate SoleGrant(auth: AuthDb, grant: string) {
    grant in auth.grants ==>
      forall h | h in auth.grants
        && auth.grants[h].artifact.clientOrderId == auth.grants[grant].artifact.clientOrderId :: h == grant
  }

  /** A grant that shares its client order with no other stays within its volume in every such run. */
  lemma NetExposureBounded(c: Config, events: seq<Event>, grant: string)
    requires TruthfulRun(c, events) && SoleGrant(RunEvents(Initial(c), events).auth, grant)
    ensures WithinGrant(RunEvents(Initial(c), events), grant)
  {
    var s := RunEvents(Initial(c), events);
    RunKeepsInv(c, events);
    RunStaysBalanced(c, events);
    WithinGrantIff(c, events, grant);
    if j: nat :| ClosedBy(s, grant, j) {
      var i: nat :| ClosesEntry(s, i, j);
      assert SendOk(s.auth, s.idem, s.sends[i]) && SendOk(s.auth, s.idem, s.sends[j]);
      assert EntryOf(s, i, grant);
    }
  }

  // A grant's close is of its own entry, if it has one: there is one entry for the client order.
  lemma OwnEntryIsClosed(s: State, grant: string, i: nat, j: nat)
    requires Inv(s) && Balanced(s) && EntryOf(s, i, grant) && ClosedBy(s, grant, j)
    ensures ClosesEntry(s, i, j) && FilledBy(s.deals, i) == s.sends[i].volume == s.sends[j].volume
  {
    var k: nat :| ClosesEntry(s, k, j);
    assert SendOk(s.auth, s.idem, s.sends[i]) && SendOk(s.auth, s.idem, s.sends[j]);
    assert !SendsApart(s.sends[k], s.sends[i]) && !SendsApart(s.sends[i], s.sends[k]);
    assert k == i;
  }

  lemma OnlyEntryAndClose(s: State, grant: string, i: nat, j: nat)
    requires Inv(s) && EntryOf(s, i, grant)
    requires if j < |s.sends| then ClosedBy(s, grant, j)
             else forall k | 0 <= k < |s.sends| && s.sends[k].grant == grant :: !s.sends[k].op.CloseSend?
    ensures forall k | 0 <= k < |s.sends| && s.sends[k].grant == grant && !s.sends[k].op.CancelSend? :: k == i || k == j
  {
    forall k | 0 <= k < |s.sends| && s.sends[k].grant == grant && !s.sends[k].op.CancelSend? ensures k == i || k == j {
      if s.sends[k].op.EntrySend? {
        assert !SendsApart(s.sends[k], s.sends[i]) && !SendsApart(s.sends[i], s.sends[k]);
      } else if j < |s.sends| {
        assert !SendsApart(s.sends[k], s.sends[j]) && !SendsApart(s.sends[j], s.sends[k]);
      }
    }
  }

  lemma EntryKeepsWithin(s: State, grant: string, i: nat)
    requires Inv(s) && Balanced(s) && EntryOf(s, i, grant)
    ensures WithinGrant(s, grant)
  {
    forall k: nat | EntryOf(s, k, grant) ensures EntryBound(s, grant, k) {
      EntryBounded(s, grant, k);
    }
    forall j: nat | ClosedBy(s, grant, j) && FilledBy(s.deals, j) == s.sends[j].volume
      ensures Net(s.deals, s.sends, grant) == 0.0
    {
      OwnEntryIsClosed(s, grant, i, j);
      OnlyEntryAndClose(s, grant, i, j);
      NetOfEntryAndClose(s.deals, s.sends, grant, i, j);
    }
  }

  lemma EntryBounded(s: State, grant: string, i: nat)
    requires Inv(s) && Balanced(s) && EntryOf(s, i, grant)
    ensures EntryBound(s, grant, i)
  {
    assert s.sends[i] in s.sends && SendOk(s.auth, s.idem, s.sends[i]);
    FilledIsNonNegative(s.deals, s.sends, i);
    if j: nat :| ClosedBy(s, grant, j) {
      FilledIsNonNegative(s.deals, s.sends, j);
      OwnEntryIsClosed(s, grant, i, j);
      OnlyEntryAndClose(s, grant, i, j);
      NetOfEntryAndClose(s.deals, s.sends, grant, i, j);
    } else {
      assert forall k: nat :: !ClosedBy(s, grant, k);
      forall k | 0 <= k < |s.sends| && s.sends[k].grant == grant ensures !s.sends[k].op.CloseSend? {
        assert !ClosedBy(s, grant, k);
      }
      OnlyEntryAndClose(s, grant, i, |s.sends|);
      NetOfEntryAndClose(s.deals, s.sends, grant, i, |s.sends|);
    }
  }

  // What the deals of a grant add up to, when its only filling send is the close j.
  lemma {:induction false} NetOfCloseAlone(deals: seq<BrokerDeal>, sends: seq<Send>, grant: string, j: nat)
    requires forall b | b in deals :: DealOk(sends, b)
    requires j < |sends| && sends[j].grant == grant && sends[j].kind in {0, 1}
    requires forall k | 0 <= k < |sends| && sends[k].grant == grant && !sends[k].op.CancelSend? :: k == j
    ensures Net(deals, sends, grant) == (if sends[j].kind == 0 then 1.0 else -1.0) * FilledBy(deals, j)
  {
    if deals != [] {
      NetOfCloseAlone(deals[..|deals| - 1], sends, grant, j);
      assert deals[|deals| - 1] in deals;
    }
  }

  lemma OnlyFillsMatter(s: State, grant: string)
    requires Inv(s) && Balanced(s) && !exists i: nat :: EntryOf(s, i, grant)
    ensures WithinGrant(s, grant) <==> forall j: nat | ClosedBy(s, grant, j) :: FilledBy(s.deals, j) == 0.0
  {
    if j: nat :| ClosedBy(s, grant, j) {
      forall k | 0 <= k < |s.sends| && s.sends[k].grant == grant && !s.sends[k].op.CancelSend? ensures k == j {
        assert !EntryOf(s, k, grant);
        assert !SendsApart(s.sends[k], s.sends[j]) && !SendsApart(s.sends[j], s.sends[k]);
      }
      var i: nat :| ClosesEntry(s, i, j);
      NetOfCloseAlone(s.deals, s.sends, grant, j);
    } else {
      forall x | x in s.sends && x.grant == grant ensures x.op.CancelSend? {
        var k :| 0 <= k < |s.sends| && s.sends[k] == x;
        assert !EntryOf(s, k, grant) && !ClosedBy(s, grant, k);
      }
      NoFillNoNet(s.deals, s.sends, grant);
    }
  }
}
