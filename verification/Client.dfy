/** The locked terminal client: reconnecting, observing the account, reconciling, and rebuilding the resolver. */
module Client {
  import opened Wrappers
  import opened Session

  // A resolver remembers the account it was built under; it is live once its catalog read succeeded.
  datatype Resolver = Resolver(builtFor: Option<Fingerprint>, live: bool)

  // What the terminal answers is decided by the environment and handed to each operation as a script.
  // An error is one the callers know as an unavailable terminal (a lost connection, a missing catalog), or any other.
  datatype Cause = Outage | Unexpected
  datatype Reading = ReadFails(cause: Cause) | Read(info: AccountInfo)
  datatype Build = BuildLost | BuildRaises(cause: Cause) | BuildUnresolved | BuildComplete
  datatype Connect = ConnectNone | ConnectLost | ConnectRaises | Connected
  datatype EnsureScript = EnsureScript(connect: Connect, reading: Reading, build: Build)
  datatype EnsureResult = Established | Closed | Raised

  datatype ClientState = ClientState(
    guard: GuardState, connected: bool, resolver: Option<Resolver>, symbols: seq<string>, transition: bool)

  const FRESH_CLIENT := ClientState(FRESH_GUARD, false, None, [], false)

  function ObserveSession(c: ClientState, reading: Reading): ClientState {
    match reading
    case ReadFails(_) => c.(guard := Disconnect(c.guard, Mt5Disconnected))
    case Read(info) =>
      var g := Observe(c.guard, info);
      c.(guard := g, resolver := if g.phase.SwitchDetected? || g.phase.Unknown? then None else c.resolver)
  }

  function ReconcileSession(c: ClientState, build: Build): ClientState {
    if !c.connected || !c.guard.phase.SwitchDetected? then c
    else if c.symbols == [] then c.(guard := Reconcile(c.guard))
    else match build
      case BuildComplete =>
        c.(guard := Reconcile(c.guard), resolver := Some(Resolver(c.guard.observed, true)))
      case BuildUnresolved => c.(guard := FailReconciliation(c.guard, SymbolsUnavailable))
      case _ => c.(guard := FailReconciliation(c.guard, ReconciliationFailed))
  }

  // Rebuilding in place forgets the old catalog before it reads the new one.
  function RefreshResolver(c: ClientState, build: Build): ClientState {
    if c.resolver.None? then c
    else c.(resolver := Some(Resolver(c.guard.active, build.BuildComplete? || build.BuildUnresolved?)))
  }

  function EnsureConnected(c: ClientState, e: EnsureScript): (ClientState, EnsureResult) {
    var c0 := c.(transition := false);
    if c0.connected then
      var c1 := ObserveSession(c0, e.reading);
      if c1.guard.phase.SwitchDetected? then (ReconcileSession(c1.(transition := true), e.build), Closed)
      else (c1, if c1.guard.IsReady() then Established else Closed)
    else match e.connect
      case ConnectNone => (c0, Closed)
      case ConnectLost => (c0, Closed)
      case ConnectRaises => (c0, Raised)
      case Connected =>
        var c1 := ObserveSession(c0, e.reading);
        if c1.guard.IsReady() then
          var c2 := RefreshResolver(c1.(connected := true), e.build);
          if c2.resolver.None? || c2.resolver.value.live then (c2, Established)
          else (c2.(connected := false), if e.build.BuildLost? then Closed else Raised)
        else if c1.guard.phase.SwitchDetected? then
          (ReconcileSession(c1.(connected := true, transition := true), e.build), Closed)
        else (c1, Closed)
  }

  function Reset(c: ClientState): ClientState {
    c.(connected := false, guard := Disconnect(c.guard, Mt5Disconnected))
  }

  function InitResolver(c: ClientState, symbols: seq<string>, build: Build): (ClientState, bool) {
    if !c.connected || !c.guard.IsReady() then (c, false)
    else
      var live := build.BuildComplete? || build.BuildUnresolved?;
      (c.(symbols := symbols, resolver := Some(Resolver(c.guard.active, live))), live)
  }

  // The function a caller passes in may build a missing resolver before it answers or raises.
  datatype Action<+T> = Action(init: Option<(seq<string>, Build)>, outcome: Option<T>)
  datatype CallScript<+T> = CallScript(ensure: EnsureScript, action: Action<T>, after: Reading, rebuild: Build)
  datatype CallResult<+T> = Value(value: T) | Transition | NotConnected | ActionRaised | EnsureRaised

  function Act<T>(c: ClientState, a: Action<T>): (ClientState, Option<T>) {
    if a.init.Some? then
      var (c1, ok) := InitResolver(c, a.init.value.0, a.init.value.1);
      (c1, if ok then a.outcome else None)
    else (c, a.outcome)
  }

  function Conclude<T>(c: ClientState, generation: nat, value: T, after: Reading,
                       rebuild: Build): (ClientState, CallResult<T>) {
    var c1 := ObserveSession(c, after);
    if !c1.guard.IsReady() then
      if c.guard.phase.SwitchDetected? || c1.guard.phase.SwitchDetected? then
        (ReconcileSession(c1, rebuild), Transition)
      else (c1, NotConnected)
    else if c1.guard.generation != generation then (c1, Transition)
    else (c1, Value(value))
  }

  function Call<T>(c: ClientState, s: CallScript<T>): (ClientState, CallResult<T>) {
    var (c1, e) := EnsureConnected(c, s.ensure);
    match e
    case Raised => (c1, EnsureRaised)
    case Closed => (c1, if c1.guard.phase.SwitchDetected? || c1.transition then Transition else NotConnected)
    case Established =>
      var (c2, answer) := Act(c1, s.action);
      if answer.None? then (Reset(c2), ActionRaised)
      else Conclude(c2, c1.guard.generation, answer.value, s.after, s.rebuild)
  }

  /** Everything a process can do to its client between two moments when the lock is free. */
  datatype ClientOp =
    | Ensure(e: EnsureScript)
    | Monitor(e: EnsureScript)
    | Invoke(s: CallScript<int>)
    | ResetConnection
    | ReconcileAgain(build: Build)
    | Init(symbols: seq<string>, build: Build)
    | Refresh(replace: Option<seq<string>>, build: Build)

  function Apply(c: ClientState, op: ClientOp): ClientState {
    match op
    case Ensure(e) => EnsureConnected(c, e).0
    case Monitor(e) =>
      var (c1, r) := EnsureConnected(c, e);
      if r.Raised? then c1.(guard := Disconnect(c1.guard, Mt5Disconnected)) else c1
    case Invoke(s) => Call(c, s).0
    case ResetConnection => Reset(c)
    case ReconcileAgain(build) => ReconcileSession(c, build)
    case Init(symbols, build) => InitResolver(c, symbols, build).0
    case Refresh(replace, build) =>
      var c1 := if replace.Some? then c.(symbols := replace.value) else c;
      if c1.connected then RefreshResolver(c1, build) else c1
  }

  function RunOps(c: ClientState, ops: seq<ClientOp>): ClientState {
    if ops == [] then c else Apply(RunOps(c, ops[..|ops| - 1]), ops[|ops| - 1])
  }

  // ---- What every reachable client satisfies ----

  predicate Coherent(g: GuardState) {
    && (g.active.Some? ==> g.active.value.mode != OtherMode)
    && match g.phase
       case Disconnected => g.lastKey == None
       case Unknown => g.lastKey.Some?
       case Ready => g.active.Some? && g.observed == g.active
         && g.lastKey == Some(KnownAccount(TokenOf(g.active.value)))
       case SwitchDetected =>
         && g.active.Some? && g.observed.Some? && g.observed.value.mode != OtherMode
         && g.lastKey == Some(KnownAccount(TokenOf(g.observed.value)))
  }

  /** A resolver belongs to the active account, and none survives a switch or an unknown account. */
  predicate Sound(c: ClientState) {
    && Coherent(c.guard)
    && (c.resolver.Some? ==> c.guard.active.Some? && c.resolver.value.builtFor == c.guard.active)
    && (c.guard.phase.SwitchDetected? || c.guard.phase.Unknown? ==> c.resolver.None?)
  }

  // One generation stands for at most one observation key: it may only be forgotten, never replaced.
  predicate Follows(g: GuardState, h: GuardState) {
    || g.generation < h.generation
    || (g.generation == h.generation && (h.lastKey == g.lastKey || h.lastKey == None))
  }

  lemma ObserveKeeps(c: ClientState, r: Reading)
    requires Sound(c)
    ensures Sound(ObserveSession(c, r)) && Follows(c.guard, ObserveSession(c, r).guard)
    ensures ObserveSession(c, r).guard.phase.Ready? && c.guard.active.Some?
            ==> ObserveSession(c, r).guard.active == c.guard.active
  {
    if r.Read? && Candidate(r.info).Some? && c.guard.active.Some?
       && TokenOf(Candidate(r.info).value) == TokenOf(c.guard.active.value) {
      TokenIdentifiesAccount(Candidate(r.info).value, c.guard.active.value);
    }
  }

  lemma ReconcileKeeps(c: ClientState, build: Build)
    requires Sound(c)
    ensures Sound(ReconcileSession(c, build)) && ReconcileSession(c, build).guard.generation == c.guard.generation
    ensures ReconcileSession(c, build).guard.lastKey == c.guard.lastKey
  {}

  lemma RefreshKeeps(c: ClientState, build: Build)
    requires Sound(c)
    ensures Sound(RefreshResolver(c, build)) && RefreshResolver(c, build).guard == c.guard
  {}

  lemma EnsureKeeps(c: ClientState, e: EnsureScript)
    requires Sound(c)
    ensures Sound(EnsureConnected(c, e).0) && Follows(c.guard, EnsureConnected(c, e).0.guard)
    ensures EnsureConnected(c, e).1.Established?
            ==> EnsureConnected(c, e).0.guard.phase.Ready? && EnsureConnected(c, e).0.connected
  {
    var c0 := c.(transition := false);
    ObserveKeeps(c0, e.reading);
    var c1 := ObserveSession(c0, e.reading);
    ReconcileKeeps(c1.(connected := true, transition := true), e.build);
    RefreshKeeps(c1.(connected := true), e.build);
  }

  lemma ConcludeKeeps<T>(c: ClientState, generation: nat, v: T, after: Reading, rebuild: Build)
    requires Sound(c)
    ensures Sound(Conclude(c, generation, v, after, rebuild).0)
    ensures Follows(c.guard, Conclude(c, generation, v, after, rebuild).0.guard)
  {
    ObserveKeeps(c, after);
  }

  lemma CallKeeps<T>(c: ClientState, s: CallScript<T>)
    requires Sound(c)
    ensures Sound(Call(c, s).0) && Follows(c.guard, Call(c, s).0.guard)
  {
    EnsureKeeps(c, s.ensure);
    var (c1, e) := EnsureConnected(c, s.ensure);
    if e.Established? {
      var (c2, answer) := Act(c1, s.action);
      assert Sound(c2) && c2.guard == c1.guard;
      if answer.Some? {
        ConcludeKeeps(c2, c1.guard.generation, answer.value, s.after, s.rebuild);
      }
    }
  }

  lemma ApplyKeeps(c: ClientState, op: ClientOp)
    requires Sound(c)
    ensures Sound(Apply(c, op)) && Follows(c.guard, Apply(c, op).guard)
  {
    match op
    case Ensure(e) => EnsureKeeps(c, e);
    case Monitor(e) => EnsureKeeps(c, e);
    case Invoke(s) => CallKeeps(c, s);
    case _ =>
  }

  /** Every reachable client is sound, and its later guard states follow its earlier ones. */
  lemma {:induction false} RunKeeps(c: ClientState, ops: seq<ClientOp>)
    requires Sound(c)
    ensures Sound(RunOps(c, ops)) && Follows(c.guard, RunOps(c, ops).guard)
  {
    if ops != [] {
      RunKeeps(c, ops[..|ops| - 1]);
      ApplyKeeps(RunOps(c, ops[..|ops| - 1]), ops[|ops| - 1]);
    }
  }

  /** Two ready moments of one process with one generation are the same account, whatever happened between them. */
  lemma GenerationNamesOneAccount(before: seq<ClientOp>, between: seq<ClientOp>)
    ensures var c := RunOps(FRESH_CLIENT, before); var d := RunOps(c, between);
            && c.guard.generation <= d.guard.generation
            && (c.guard.IsReady() && d.guard.IsReady() && c.guard.generation == d.guard.generation
                ==> c.guard.active == d.guard.active && c.guard.Identity() == d.guard.Identity())
  {
    var c := RunOps(FRESH_CLIENT, before);
    var d := RunOps(c, between);
    RunKeeps(FRESH_CLIENT, before);
    RunKeeps(c, between);
    if c.guard.IsReady() && d.guard.IsReady() && c.guard.generation == d.guard.generation {
      TokenIdentifiesAccount(c.guard.active.value, d.guard.active.value);
    }
  }

  /** When the guarded function raises, the session is closed and readiness returns only under a larger generation. */
  lemma RaiseRetiresGeneration<T>(c: ClientState, s: CallScript<T>, later: seq<ClientOp>)
    requires Sound(c) && Call(c, s).1.ActionRaised?
    ensures var during := EnsureConnected(c, s.ensure).0.guard;
            && during.IsReady() && c.guard.generation <= during.generation
            && !Call(c, s).0.guard.IsReady()
            && (RunOps(Call(c, s).0, later).guard.IsReady()
                ==> during.generation < RunOps(Call(c, s).0, later).guard.generation)
  {
    EnsureKeeps(c, s.ensure);
    CallKeeps(c, s);
    RunKeeps(Call(c, s).0, later);
  }

  /** A returned value was computed between two ready observations of one account under one generation. */
  lemma ValueIsBracketed<T>(c: ClientState, s: CallScript<T>)
    requires Sound(c) && Call(c, s).1.Value?
    ensures var before := EnsureConnected(c, s.ensure).0.guard; var after := Call(c, s).0.guard;
            && before.IsReady() && after.IsReady()
            && before.generation == after.generation && before.active == after.active
            && Some(Call(c, s).1.value) == s.action.outcome
  {
    EnsureKeeps(c, s.ensure);
    var c1 := EnsureConnected(c, s.ensure).0;
    var c2 := Act(c1, s.action).0;
    ObserveKeeps(c2, s.after);
  }

  /** A live resolver of a ready session was built under the account that session is on. */
  lemma ResolverMatchesAccount(ops: seq<ClientOp>)
    ensures var c := RunOps(FRESH_CLIENT, ops);
            c.guard.IsReady() && c.resolver.Some? ==> c.resolver.value.builtFor == c.guard.Identity()
  {
    RunKeeps(FRESH_CLIENT, ops);
  }

  // An account for the counterexamples below.
  const ACCOUNT_A: Fingerprint := Fingerprint("a", "s", Demo)
  const INFO_A := Account(Some("a"), "s", Code(DEMO_CODE))

  /** The bare guard lacks that protection: acknowledging after a disconnect makes the old generation ready again,
      exactly when a known account had been observed. The client never acknowledges outside the switch phase. */
  lemma BareGuardRevivesGenerationIff(g: GuardState, fault: Fault)
    ensures Reconcile(Disconnect(g, fault)).IsReady() <==> g.observed.Some? && g.observed.value.mode != OtherMode
    ensures Reconcile(Disconnect(g, fault)).generation == g.generation
    ensures var h := Observe(FRESH_GUARD, INFO_A);
            h.IsReady() && Reconcile(Disconnect(h, fault)).IsReady()
            && Reconcile(Disconnect(h, fault)).generation == h.generation
  {
    assert Candidate(INFO_A) == Some(ACCOUNT_A);
  }

  // ---- When ready does not mean connected ----

  predicate Stranded(c: ClientState) { c.guard.IsReady() && !c.connected }

  // A new connection finds a known account, and rebuilding the configured resolver fails.
  predicate RebuildFails(c: ClientState, e: EnsureScript) {
    && !c.connected && e.connect.Connected? && ObserveSession(c, e.reading).guard.IsReady()
    && c.resolver.Some? && (e.build.BuildLost? || e.build.BuildRaises?)
  }

  /** Ensuring leaves a client ready without a connection exactly when it rebuilds the resolver on a new connection and
      fails, or when the client was so before and no new connection came. */
  lemma EnsureStrandsIff(c: ClientState, e: EnsureScript)
    requires Sound(c)
    ensures Stranded(EnsureConnected(c, e).0) <==> RebuildFails(c, e) || (Stranded(c) && !e.connect.Connected?)
  {
    var c0 := c.(transition := false);
    ObserveKeeps(c0, e.reading);
    assert ObserveSession(c0, e.reading).guard == ObserveSession(c, e.reading).guard;
  }

  // The operation fails to rebuild on a new connection; the monitor forgets the session if that raises.
  predicate Strands(c: ClientState, op: ClientOp) {
    match op
    case Ensure(e) => RebuildFails(c, e)
    case Monitor(e) => RebuildFails(c, e) && e.build.BuildLost?
    case Invoke(s) => RebuildFails(c, s.ensure)
    case _ => false
  }

  // The operation gets no new connection, and does not reset the client either.
  predicate NoConnection(op: ClientOp) {
    match op
    case Ensure(e) => !e.connect.Connected?
    case Monitor(e) => e.connect.ConnectNone? || e.connect.ConnectLost?
    case Invoke(s) => !s.ensure.connect.Connected?
    case ResetConnection => false
    case _ => true
  }

  // A call that got through ends connected, or not ready because its function raised.
  lemma EstablishedEndsConnected(c1: ClientState, s: CallScript<int>)
    requires c1.connected
    ensures var (c2, answer) := Act(c1, s.action);
            && c2.connected && !Stranded(Reset(c2))
            && (answer.Some? ==> Conclude(c2, c1.guard.generation, answer.value, s.after, s.rebuild).0.connected)
  {}

  lemma CallStrandsIff(c: ClientState, s: CallScript<int>)
    requires Sound(c)
    ensures Stranded(Call(c, s).0) <==> RebuildFails(c, s.ensure) || (Stranded(c) && !s.ensure.connect.Connected?)
  {
    EnsureKeeps(c, s.ensure);
    EnsureStrandsIff(c, s.ensure);
    var (c1, e) := EnsureConnected(c, s.ensure);
    if e.Established? {
      EstablishedEndsConnected(c1, s);
    }
  }

  lemma ApplyStrandsIff(c: ClientState, op: ClientOp)
    requires Sound(c)
    ensures Stranded(Apply(c, op)) <==> Strands(c, op) || (Stranded(c) && NoConnection(op))
  {
    match op
    case Ensure(e) => EnsureStrandsIff(c, e);
    case Monitor(e) => EnsureStrandsIff(c, e);
    case Invoke(s) => CallStrandsIff(c, s);
    case _ =>
  }

  // Operation k failed to rebuild on a new connection, and nothing after it got one or reset the client.
  ghost predicate StrandedBy(ops: seq<ClientOp>, k: nat) {
    && k < |ops| && Strands(RunOps(FRESH_CLIENT, ops[..k]), ops[k])
    && forall m | k < m < |ops| :: NoConnection(ops[m])
  }

  lemma StrandedByPrefix(ops: seq<ClientOp>, k: nat)
    requires k < |ops| - 1
    ensures StrandedBy(ops, k) <==> StrandedBy(ops[..|ops| - 1], k) && NoConnection(ops[|ops| - 1])
  {
    var most := ops[..|ops| - 1];
    assert most[..k] == ops[..k] && most[k] == ops[k];
    if StrandedBy(most, k) && NoConnection(ops[|ops| - 1]) {
      forall m | k < m < |ops| ensures NoConnection(ops[m]) {
        assert m < |most| ==> most[m] == ops[m];
      }
    }
    if StrandedBy(ops, k) {
      forall m | k < m < |most| ensures NoConnection(most[m]) {
        assert most[m] == ops[m];
      }
    }
  }

  /** Over any run, a process ends ready without a connection exactly when some operation failed to rebuild the resolver
      on a new connection and nothing after it got a connection or reset the client. */
  lemma {:induction false} ReadyWithoutConnectionIff(ops: seq<ClientOp>)
    ensures Stranded(RunOps(FRESH_CLIENT, ops)) <==> exists k: nat :: StrandedBy(ops, k)
  {
    if ops != [] {
      var last := |ops| - 1;
      var most := ops[..last];
      ReadyWithoutConnectionIff(most);
      RunKeeps(FRESH_CLIENT, most);
      ApplyStrandsIff(RunOps(FRESH_CLIENT, most), ops[last]);
      assert StrandedBy(ops, last) <==> Strands(RunOps(FRESH_CLIENT, most), ops[last]);
      if k: nat :| StrandedBy(ops, k) {
        if k < last {
          StrandedByPrefix(ops, k);
        }
      }
      if k: nat :| StrandedBy(most, k) {
        StrandedByPrefix(ops, k);
      }
    }
  }

  /** Such runs exist: the catalog is lost while a reconnected client rebuilds its resolver. */
  lemma ReadyWithoutConnection()
    ensures exists ops :: Stranded(RunOps(FRESH_CLIENT, ops))
  {
    var up, init := Ensure(EnsureScript(Connected, Read(INFO_A), BuildComplete)), Init(["X"], BuildComplete);
    var down := Ensure(EnsureScript(Connected, Read(INFO_A), BuildLost));
    var c2 := Apply(Apply(FRESH_CLIENT, up), init);
    assert c2.guard.IsReady() && c2.resolver.Some? && c2.connected;
    LostWhileReady(c2);
    var ops := [up, init, ResetConnection, down];
    assert RunOps(FRESH_CLIENT, ops) == Apply(Apply(c2, ResetConnection), down) by {
      OneMoreOp([], up);
      OneMoreOp([up], init);
      OneMoreOp([up, init], ResetConnection);
      OneMoreOp([up, init, ResetConnection], down);
      assert [] + [up] == [up] && [up] + [init] == [up, init];
      assert [up, init] + [ResetConnection] == [up, init, ResetConnection];
      assert [up, init, ResetConnection] + [down] == ops;
    }
  }

  // Reconnecting to the account the session already had, with a catalog that is lost while the resolver is rebuilt.
  lemma LostWhileReady(c: ClientState)
    requires c == Apply(Apply(FRESH_CLIENT, Ensure(EnsureScript(Connected, Read(INFO_A), BuildComplete))),
                        Init(["X"], BuildComplete))
    ensures Stranded(Apply(Apply(c, ResetConnection), Ensure(EnsureScript(Connected, Read(INFO_A), BuildLost))))
  {}

  lemma OneMoreOp(ops: seq<ClientOp>, op: ClientOp)
    ensures RunOps(FRESH_CLIENT, ops + [op]) == Apply(RunOps(FRESH_CLIENT, ops), op)
  {
    assert (ops + [op])[..|ops|] == ops;
  }

  /** The client object. Each method runs with the lock held and matches the function of its name. */
  class MT5Client {
    const guard: AccountSessionGuard
    var connected: bool
    var resolver: Option<Resolver>
    var symbols: seq<string>
    var transition: bool

    function State(): ClientState reads this, guard {
      ClientState(guard.State(), connected, resolver, symbols, transition)
    }

    constructor ()
      ensures State() == FRESH_CLIENT && fresh(guard)
    {
      guard := new AccountSessionGuard();
      connected, resolver, symbols, transition := false, None, [], false;
    }

    method ObserveSessionUnsafe(reading: Reading) returns (ready: bool)
      modifies this, guard
      ensures State() == ObserveSession(old(State()), reading) && ready == State().guard.IsReady()
    {
      if reading.ReadFails? {
        guard.MarkDisconnected();
        return false;
      }
      guard.ObserveAccountInfo(reading.info);
      if guard.phase.SwitchDetected? || guard.phase.Unknown? {
        resolver := None;
      }
      ready := guard.State().IsReady();
    }

    method ReconcileSessionUnsafe(build: Build)
      modifies this, guard
      ensures State() == ReconcileSession(old(State()), build)
    {
      if !connected || !guard.phase.SwitchDetected? {
        return;
      }
      if symbols != [] {
        if build.BuildLost? || build.BuildRaises? {
          guard.MarkReconciliationFailed();
          return;
        }
        if build.BuildUnresolved? {
          guard.MarkReconciliationFailed(SymbolsUnavailable);
          return;
        }
        resolver := Some(Resolver(guard.observed, true));
      }
      guard.ReconcileObserved();
    }

    method EnsureConnectedUnsafe(e: EnsureScript) returns (r: EnsureResult)
      modifies this, guard
      ensures (State(), r) == EnsureConnected(old(State()), e)
    {
      transition := false;
      if connected {
        var observed := ObserveSessionUnsafe(e.reading);
        if !observed && guard.phase.SwitchDetected? {
          transition := true;
          ReconcileSessionUnsafe(e.build);
          return Closed;
        }
        return if observed then Established else Closed;
      }
      if !e.connect.Connected? {
        return if e.connect.ConnectRaises? then Raised else Closed;
      }
      var observed := ObserveSessionUnsafe(e.reading);
      if !observed {
        if guard.phase.SwitchDetected? {
          connected, transition := true, true;
          ReconcileSessionUnsafe(e.build);
        }
        return Closed;
      }
      connected := true;
      if resolver.Some? {
        resolver := Some(Resolver(guard.active, false));
        if e.build.BuildLost? || e.build.BuildRaises? {
          connected := false;
          return if e.build.BuildLost? then Closed else Raised;
        }
        resolver := Some(Resolver(guard.active, true));
      }
      r := Established;
    }

    method ResetUnsafe()
      modifies this, guard
      ensures State() == Reset(old(State()))
    {
      connected := false;
      guard.MarkDisconnected();
    }

    method InitResolverUnsafe(configured: seq<string>, build: Build) returns (ok: bool)
      modifies this
      ensures (State(), ok) == InitResolver(old(State()), configured, build)
    {
      if !connected || !guard.State().IsReady() {
        return false;
      }
      symbols := configured;
      ok := build.BuildComplete? || build.BuildUnresolved?;
      resolver := Some(Resolver(guard.active, ok));
    }

    method ConcludeUnsafe<T>(generation: nat, value: T, after: Reading, rebuild: Build) returns (r: CallResult<T>)
      modifies this, guard
      ensures (State(), r) == Conclude(old(State()), generation, value, after, rebuild)
    {
      var wasSwitching := guard.phase.SwitchDetected?;
      var observed := ObserveSessionUnsafe(after);
      if !observed {
        if wasSwitching || guard.phase.SwitchDetected? {
          ReconcileSessionUnsafe(rebuild);
          return Transition;
        }
        return NotConnected;
      }
      r := if guard.generation != generation then Transition else Value(value);
    }

    method CallUnsafe<T>(s: CallScript<T>) returns (r: CallResult<T>)
      modifies this, guard
      ensures (State(), r) == Call(old(State()), s)
    {
      var e := EnsureConnectedUnsafe(s.ensure);
      if e.Raised? {
        return EnsureRaised;
      }
      if e.Closed? {
        return if guard.phase.SwitchDetected? || transition then Transition else NotConnected;
      }
      var generation := guard.generation;
      var answer := s.action.outcome;
      if s.action.init.Some? {
        var ok := InitResolverUnsafe(s.action.init.value.0, s.action.init.value.1);
        answer := if ok then s.action.outcome else None;
      }
      if answer.None? {
        ResetUnsafe();
        return ActionRaised;
      }
      r := ConcludeUnsafe(generation, answer.value, s.after, s.rebuild);
    }

    method Perform(op: ClientOp)
      modifies this, guard
      ensures State() == Apply(old(State()), op)
    {
      match op
      case Ensure(e) => var _ := EnsureConnectedUnsafe(e);
      case Monitor(e) =>
        var r := EnsureConnectedUnsafe(e);
        if r.Raised? {
          guard.MarkDisconnected();
        }
      case Invoke(s) => var _ := CallUnsafe(s);
      case ResetConnection => ResetUnsafe();
      case ReconcileAgain(build) => ReconcileSessionUnsafe(build);
      case Init(names, build) => var _ := InitResolverUnsafe(names, build);
      case Refresh(replace, build) =>
        if replace.Some? {
          symbols := replace.value;
        }
        if connected && resolver.Some? {
          resolver := Some(Resolver(guard.active, build.BuildComplete? || build.BuildUnresolved?));
        }
    }
  }
}
