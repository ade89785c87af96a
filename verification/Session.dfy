/** The account-session guard: which account the terminal was last seen on, and under which generation number. */
module Session {
  import opened Wrappers

  // Terminal constants for ACCOUNT_TRADE_MODE_DEMO and ACCOUNT_TRADE_MODE_REAL.
  const DEMO_CODE := 0
  const REAL_CODE := 2

  datatype Mode = Demo | Real | OtherMode

  // A raw trade mode is a number or a name; names are given stripped and upper-cased.
  datatype RawMode = Code(code: int) | Name(normalized: string) | NoMode

  function TradeMode(raw: RawMode): Mode {
    match raw
    case Code(n) => if n == DEMO_CODE then Demo else if n == REAL_CODE then Real else OtherMode
    case Name(s) => if s == "DEMO" then Demo else if s == "REAL" then Real else OtherMode
    case NoMode => OtherMode
  }

  function ModeName(m: Mode): string {
    match m
    case Demo => "DEMO"
    case Real => "REAL"
    case OtherMode => "UNKNOWN"
  }

  // The hexadecimal digest of a login; all that matters of the alphabet is that it lacks NUL.
  type LoginDigest = s: string | '\0' !in s witness ""

  datatype Fingerprint = Fingerprint(login: LoginDigest, server: string, mode: Mode)

  // Hashing is taken as injective: a token is its material under a constructor.
  datatype Token = Sha256(material: string)

  function TokenOf(fp: Fingerprint): Token {
    Sha256(fp.login + ['\0'] + fp.server + ['\0'] + ModeName(fp.mode))
  }

  // What stands before the first NUL is determined by the whole text.
  lemma BeforeFirstNul(a: string, b: string, x: string, y: string)
    requires '\0' !in a && '\0' !in b
    requires a + ['\0'] + x == b + ['\0'] + y
    ensures a == b && x == y
  {
    var s, t := a + ['\0'] + x, b + ['\0'] + y;
    assert s[|a|] == '\0' && t[|b|] == '\0';
    assert forall i :: 0 <= i < |a| ==> s[i] == a[i] && a[i] != '\0';
    assert forall i :: 0 <= i < |b| ==> t[i] == b[i] && b[i] != '\0';
    assert |a| == |b|;
    assert a == s[..|a|] && b == t[..|b|];
    assert x == s[|a| + 1..] && y == t[|b| + 1..];
  }

  // The three mode names end in different letters, so the mode can be read off the end.
  lemma ModeAtEnd(u: string, m: Mode, v: string, n: Mode)
    requires u + ['\0'] + ModeName(m) == v + ['\0'] + ModeName(n)
    ensures u == v && m == n
  {
    var s, t := u + ['\0'] + ModeName(m), v + ['\0'] + ModeName(n);
    assert s[|s| - 1] == ModeName(m)[|ModeName(m)| - 1];
    assert t[|t| - 1] == ModeName(n)[|ModeName(n)| - 1];
    assert m == n;
    assert u == s[..|u|] && v == t[..|v|];
  }

  /** The NUL-separated material determines the account, whatever characters the server name holds. */
  lemma TokenIdentifiesAccount(a: Fingerprint, b: Fingerprint)
    requires TokenOf(a) == TokenOf(b)
    ensures a == b
  {
    var x, y := a.server + ['\0'] + ModeName(a.mode), b.server + ['\0'] + ModeName(b.mode);
    assert TokenOf(a).material == a.login + ['\0'] + x;
    assert TokenOf(b).material == b.login + ['\0'] + y;
    BeforeFirstNul(a.login, b.login, x, y);
    ModeAtEnd(a.server, a.mode, b.server, b.mode);
  }

  // One account_info() result: login digest and server already stripped, empty meaning absent.
  datatype AccountInfo = NoAccount | Account(login: Option<LoginDigest>, server: string, tradeMode: RawMode)

  datatype Phase = Disconnected | Ready | SwitchDetected | Unknown

  datatype Fault = NoFault | Mt5Disconnected | IdentityUnknown | ModeUnknown
                 | SessionChanged | ReconciliationFailed | SymbolsUnavailable

  datatype ObservationKey = UnknownIdentity(login: string, server: string) | KnownAccount(token: Token)

  datatype GuardState = GuardState(phase: Phase, generation: nat, active: Option<Fingerprint>,
                                   observed: Option<Fingerprint>, fault: Fault, lastKey: Option<ObservationKey>)
  {
    predicate IsReady() { phase.Ready? && active.Some? }

    function Identity(): Option<Fingerprint> { if observed.Some? then observed else active }
  }

  const FRESH_GUARD := GuardState(Disconnected, 0, None, None, Mt5Disconnected, None)

  function Record(g: GuardState, key: ObservationKey): GuardState {
    if g.lastKey == Some(key) then g else g.(generation := g.generation + 1, lastKey := Some(key))
  }

  function Candidate(info: AccountInfo): Option<Fingerprint> {
    if info.Account? && info.login.Some? && info.server != ""
    then Some(Fingerprint(info.login.value, info.server, TradeMode(info.tradeMode))) else None
  }

  function Observe(g: GuardState, info: AccountInfo): GuardState {
    match Candidate(info)
    case None =>
      var login := if info.Account? && info.login.Some? then info.login.value else "";
      var server := if info.Account? then info.server else "";
      Record(g, UnknownIdentity(login, server)).(phase := Unknown, observed := None, fault := IdentityUnknown)
    case Some(fp) =>
      var r := Record(g, KnownAccount(TokenOf(fp))).(observed := Some(fp));
      if g.active.None? then
        if fp.mode != OtherMode then r.(active := Some(fp), phase := Ready, fault := NoFault)
        else r.(active := None, phase := Unknown, fault := ModeUnknown)
      else if fp.mode == OtherMode then r.(phase := Unknown, fault := ModeUnknown)
      else if TokenOf(fp) != TokenOf(g.active.value) then
        r.(phase := SwitchDetected,
           fault := if g.fault == ReconciliationFailed || g.fault == SymbolsUnavailable then g.fault
             else SessionChanged)
      else r.(active := Some(fp), phase := Ready, fault := NoFault)
  }

  function Disconnect(g: GuardState, fault: Fault): GuardState {
    g.(phase := Disconnected, lastKey := None,
       fault := if fault in {Mt5Disconnected, IdentityUnknown, ModeUnknown} then fault else Mt5Disconnected)
  }

  function FailReconciliation(g: GuardState, fault: Fault): GuardState {
    var kept := if fault == ReconciliationFailed && g.fault in {ReconciliationFailed, SymbolsUnavailable}
                then g.fault else fault;
    g.(phase := SwitchDetected,
       fault := if kept in {ReconciliationFailed, SymbolsUnavailable} then kept else ReconciliationFailed)
  }

  function Reconcile(g: GuardState): GuardState {
    if g.observed.None? then g.(phase := Unknown, fault := IdentityUnknown)
    else if g.observed.value.mode == OtherMode then g.(phase := Unknown, fault := ModeUnknown)
    else g.(active := g.observed, phase := Ready, fault := NoFault)
  }

  /** The guard object: every method's new state is the function of the same name on the old one. */
  class AccountSessionGuard {
    var phase: Phase
    var generation: nat
    var active: Option<Fingerprint>
    var observed: Option<Fingerprint>
    var fault: Fault
    var lastKey: Option<ObservationKey>

    function State(): GuardState reads this {
      GuardState(phase, generation, active, observed, fault, lastKey)
    }

    constructor ()
      ensures State() == FRESH_GUARD
    {
      phase, generation, active, observed, fault, lastKey := Disconnected, 0, None, None, Mt5Disconnected, None;
    }

    method RecordObservation(key: ObservationKey)
      modifies this`generation, this`lastKey
      ensures State() == Record(old(State()), key)
    {
      if lastKey != Some(key) {
        generation := generation + 1;
        lastKey := Some(key);
      }
    }

    method ObserveAccountInfo(info: AccountInfo)
      modifies this
      ensures State() == Observe(old(State()), info)
    {
      var candidate := Candidate(info);
      if candidate.None? {
        var login := if info.Account? && info.login.Some? then info.login.value else "";
        var server := if info.Account? then info.server else "";
        RecordObservation(UnknownIdentity(login, server));
        phase, observed, fault := Unknown, None, IdentityUnknown;
        return;
      }
      var previous := active;
      RecordObservation(KnownAccount(TokenOf(candidate.value)));
      observed := candidate;
      if previous.None? {
        active := if candidate.value.mode != OtherMode then candidate else None;
        phase := if candidate.value.mode != OtherMode then Ready else Unknown;
        fault := if phase == Ready then NoFault else ModeUnknown;
      } else if candidate.value.mode == OtherMode {
        phase, fault := Unknown, ModeUnknown;
      } else if TokenOf(candidate.value) != TokenOf(previous.value) {
        phase := SwitchDetected;
        if fault !in {ReconciliationFailed, SymbolsUnavailable} {
          fault := SessionChanged;
        }
      } else {
        active, phase, fault := candidate, Ready, NoFault;
      }
    }

    method MarkDisconnected(error: Fault := Mt5Disconnected)
      modifies this
      ensures State() == Disconnect(old(State()), error)
    {
      phase, lastKey := Disconnected, None;
      fault := if error in {Mt5Disconnected, IdentityUnknown, ModeUnknown} then error else Mt5Disconnected;
    }

    method MarkReconciliationFailed(error: Fault := ReconciliationFailed)
      modifies this
      ensures State() == FailReconciliation(old(State()), error)
    {
      phase := SwitchDetected;
      var kept := error;
      if error == ReconciliationFailed && fault in {ReconciliationFailed, SymbolsUnavailable} {
        kept := fault;
      }
      fault := if kept in {ReconciliationFailed, SymbolsUnavailable} then kept else ReconciliationFailed;
    }

    method ReconcileObserved()
      modifies this
      ensures State() == Reconcile(old(State()))
    {
      if observed.None? || observed.value.mode == OtherMode {
        phase, fault := Unknown, if observed.Some? then ModeUnknown else IdentityUnknown;
        return;
      }
      active, phase, fault := observed, Ready, NoFault;
    }
  }
}
