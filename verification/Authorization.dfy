/** The durable grants: one entry per grant, and exits only of the exposure bound to it. */
module Authorization {
  import opened Wrappers
  import opened Session
  import opened Orders
  import opened Text

  datatype Permission = Place | Cancel | Close

  datatype Artifact = Artifact(
    id: string, account: Token, generation: nat, epoch: nat, symbol: string, volume: real, clientOrderId: string,
    permissions: set<Permission>, entryNotBefore: int, entryExpiresAt: int, recoveryExpiresAt: int, owner: string)

  predicate ValidArtifact(a: Artifact) {
    && !Blank(a.id) && !Blank(a.symbol) && !Blank(a.clientOrderId) && !Blank(a.owner)
    && 1 <= a.generation
    && a.permissions != {}
    && 0.0 < a.volume
    && a.entryNotBefore < a.entryExpiresAt <= a.recoveryExpiresAt
  }

  // The identity a request presents: what the guard reported, and the epoch of the serving process.
  datatype SessionView = SessionView(ready: bool, account: Option<Token>, mode: Mode, generation: nat, epoch: nat)

  datatype Grant = Grant(artifact: Artifact, killed: bool, claim: Option<PayloadHash>, orderId: Option<int>,
                         positionId: Option<int>)

  datatype ExitOp = CancelExit | CloseExit
  datatype ExitKey = ExitKey(grant: string, op: ExitOp, target: int)
  datatype ExitState = ExitPending | ExitSucceeded | ExitFailed | ExitIndeterminate

  datatype Abort = Abort(grant: string, owner: string, reason: string)

  datatype AuthDb = AuthDb(grants: map<string, Grant>, exits: map<ExitKey, ExitState>, aborts: seq<Abort>)

  datatype Denial =
    | InvalidArtifact | DuplicateGrant | NoGrant | SessionNotReady | DemoRequired | IdentityChanged
    | ScopeMismatch | VolumeMismatch | PayloadConflict | EntryClosed
    | ExposureUnverified | ExposureConflict | ExitScopeMismatch | RecoveryExpired

  predicate SessionMatches(a: Artifact, s: SessionView) {
    s.ready && s.mode == Demo && s.account == Some(a.account) && s.generation == a.generation && s.epoch == a.epoch
  }

  function Verify(db: AuthDb, id: string, s: SessionView): Result<Grant, Denial> {
    if id !in db.grants then Err(NoGrant)
    else if !s.ready then Err(SessionNotReady)
    else if s.mode != Demo then Err(DemoRequired)
    else if !SessionMatches(db.grants[id].artifact, s) then Err(IdentityChanged)
    else Ok(db.grants[id])
  }

  predicate InScope(a: Artifact, p: Payload) {
    Place in a.permissions && p.intent.clientOrderId == a.clientOrderId && p.intent.symbol == a.symbol
  }

  predicate EntryOpen(g: Grant, now: int) {
    !g.killed && g.artifact.entryNotBefore <= now < g.artifact.entryExpiresAt
  }

  function Provision(db: AuthDb, a: Artifact): (AuthDb, Result<(), Denial>) {
    if !ValidArtifact(a) then (db, Err(InvalidArtifact))
    else if a.id in db.grants then (db, Err(DuplicateGrant))
    else (db.(grants := db.grants[a.id := Grant(a, false, None, None, None)]), Ok(()))
  }

  // Ok(true) on the first claim, Ok(false) on a replay of the same payload.
  function ClaimEntry(db: AuthDb, id: string, s: SessionView, p: Payload, now: int): (AuthDb, Result<bool, Denial>) {
    var v := Verify(db, id, s);
    if v.Err? then (db, Err(v.error))
    else
      var g := v.value;
      if !InScope(g.artifact, p) then (db, Err(ScopeMismatch))
      else if p.intent.volume.value != g.artifact.volume then (db, Err(VolumeMismatch))
      else if g.claim.Some? then (db, if g.claim.value == PayloadHash(p) then Ok(false) else Err(PayloadConflict))
      else if !EntryOpen(g, now) then (db, Err(EntryClosed))
      else (db.(grants := db.grants[id := g.(claim := Some(PayloadHash(p)))]), Ok(true))
  }

  predicate Bindable(bound: Option<int>, value: Option<int>) {
    value.Some? ==> 0 < value.value && (bound.None? || bound == value)
  }

  function BindExposure(db: AuthDb, id: string, s: SessionView, order: Option<int>,
                        position: Option<int>): (AuthDb, Result<(), Denial>) {
    if order.None? && position.None? then (db, Err(ExposureUnverified))
    else
      var v := Verify(db, id, s);
      if v.Err? then (db, Err(v.error))
      else
        var g := v.value;
        if g.claim.None? then (db, Err(ExposureUnverified))
        else if !Bindable(g.orderId, order) || !Bindable(g.positionId, position) then (db, Err(ExposureConflict))
        else (db.(grants := db.grants[id := g.(orderId := if order.Some? then order else g.orderId,
                                               positionId := if position.Some? then position
                                                 else g.positionId)]), Ok(()))
  }

  function AuthorizeEntry(db: AuthDb, id: string, s: SessionView, p: Payload, now: int): Result<(), Denial> {
    var v := Verify(db, id, s);
    if v.Err? then Err(v.error)
    else if v.value.claim != Some(PayloadHash(p)) then Err(PayloadConflict)
    else if Place !in v.value.artifact.permissions || !EntryOpen(v.value, now) then Err(EntryClosed)
    else Ok(())
  }

  function BoundTarget(g: Grant, op: ExitOp): Option<int> {
    if op.CancelExit? then g.orderId else g.positionId
  }

  function AuthorizeExit(db: AuthDb, id: string, s: SessionView, op: ExitOp, target: int,
                         now: int): Result<(), Denial> {
    var v := Verify(db, id, s);
    if v.Err? then Err(v.error)
    else if (if op.CancelExit? then Cancel else Close) !in v.value.artifact.permissions
            || BoundTarget(v.value, op) != Some(target) then Err(ExitScopeMismatch)
    else if v.value.artifact.recoveryExpiresAt <= now then Err(RecoveryExpired)
    else Ok(())
  }

  // Ok(None) when the exit is newly reserved, Ok(Some(state)) when it was reserved before.
  function ReserveExit(db: AuthDb, id: string, s: SessionView, op: ExitOp, target: int,
                       now: int): (AuthDb, Result<Option<ExitState>, Denial>) {
    var a := AuthorizeExit(db, id, s, op, target, now);
    var key := ExitKey(id, op, target);
    if a.Err? then (db, Err(a.error))
    else if key in db.exits then (db, Ok(Some(db.exits[key])))
    else (db.(exits := db.exits[key := ExitPending]), Ok(None))
  }

  function DisableEntry(db: AuthDb, id: string, reason: string): AuthDb {
    if id !in db.grants then db
    else db.(grants := db.grants[id := db.grants[id].(killed := true)],
             aborts := db.aborts + [Abort(id, db.grants[id].artifact.owner, reason)])
  }

  function FinishExit(db: AuthDb, key: ExitKey, state: ExitState): AuthDb {
    var d := if key in db.exits && db.exits[key].ExitPending? then db.(exits := db.exits[key := state]) else db;
    if state.ExitSucceeded? then d
    else DisableEntry(d, key.grant, if state.ExitFailed? then "exit_failed" else "exit_indeterminate")
  }

  // ---- Rows only move upward ----

  predicate WriteOnce<T(==)>(before: Option<T>, after: Option<T>) {
    before.Some? ==> after == before
  }

  predicate GrantRises(g: Grant, h: Grant) {
    && g.artifact == h.artifact
    && (g.killed ==> h.killed)
    && WriteOnce(g.claim, h.claim) && WriteOnce(g.orderId, h.orderId) && WriteOnce(g.positionId, h.positionId)
  }

  predicate Rises(a: AuthDb, b: AuthDb) {
    && (forall id | id in a.grants :: id in b.grants && GrantRises(a.grants[id], b.grants[id]))
    && (forall k | k in a.exits :: k in b.exits && (a.exits[k].ExitPending? || b.exits[k] == a.exits[k]))
    && a.aborts <= b.aborts
  }

  lemma RisesTransitively(a: AuthDb, b: AuthDb, c: AuthDb)
    requires Rises(a, b) && Rises(b, c)
    ensures Rises(a, c)
  {
    forall id | id in a.grants ensures id in c.grants && GrantRises(a.grants[id], c.grants[id]) {
      assert id in b.grants;
    }
    forall k | k in a.exits ensures k in c.exits && (a.exits[k].ExitPending? || c.exits[k] == a.exits[k]) {
      assert k in b.exits;
    }
  }

  lemma PutGrantRises(db: AuthDb, id: string, g: Grant)
    requires id in db.grants ==> GrantRises(db.grants[id], g)
    ensures Rises(db, db.(grants := db.grants[id := g]))
  {}

  lemma DisableRises(db: AuthDb, id: string, reason: string)
    ensures Rises(db, DisableEntry(db, id, reason))
  {}

  lemma ProvisionRises(db: AuthDb, a: Artifact)
    ensures Rises(db, Provision(db, a).0)
  {
    if a.id !in db.grants {
      PutGrantRises(db, a.id, Grant(a, false, None, None, None));
    }
  }

  lemma ClaimRises(db: AuthDb, id: string, s: SessionView, p: Payload, now: int)
    ensures Rises(db, ClaimEntry(db, id, s, p, now).0)
  {
    if id in db.grants && db.grants[id].claim.None? {
      PutGrantRises(db, id, db.grants[id].(claim := Some(PayloadHash(p))));
    }
  }

  lemma BindRises(db: AuthDb, id: string, s: SessionView, order: Option<int>, position: Option<int>)
    ensures Rises(db, BindExposure(db, id, s, order, position).0)
  {
    if BindExposure(db, id, s, order, position).1.Ok? {
      PutGrantRises(db, id, BindExposure(db, id, s, order, position).0.grants[id]);
    }
  }

  lemma ReserveExitRises(db: AuthDb, id: string, s: SessionView, op: ExitOp, target: int, now: int)
    ensures Rises(db, ReserveExit(db, id, s, op, target, now).0)
  {}

  lemma FinishExitRises(db: AuthDb, key: ExitKey, state: ExitState)
    requires !state.ExitPending?
    ensures Rises(db, FinishExit(db, key, state))
  {
    var d := if key in db.exits && db.exits[key].ExitPending? then db.(exits := db.exits[key := state]) else db;
    assert Rises(db, d);
    if !state.ExitSucceeded? {
      var reason := if state.ExitFailed? then "exit_failed" else "exit_indeterminate";
      DisableRises(d, key.grant, reason);
      RisesTransitively(db, d, FinishExit(db, key, state));
    }
  }

  /** The store object over its three tables. Every method is one transaction. */
  class AuthorizationStore {
    var grants: map<string, Grant>
    var exits: map<ExitKey, ExitState>
    var aborts: seq<Abort>

    function Db(): AuthDb reads this { AuthDb(grants, exits, aborts) }

    constructor ()
      ensures Db() == AuthDb(map[], map[], [])
    {
      grants, exits, aborts := map[], map[], [];
    }

    method ProvisionGrant(a: Artifact) returns (r: Result<(), Denial>)
      modifies this
      ensures (Db(), r) == Provision(old(Db()), a)
    {
      if !ValidArtifact(a) {
        return Err(InvalidArtifact);
      }
      if a.id in grants {
        return Err(DuplicateGrant);
      }
      grants := grants[a.id := Grant(a, false, None, None, None)];
      r := Ok(());
    }

    method Verified(id: string, s: SessionView) returns (r: Result<Grant, Denial>)
      ensures r == Verify(Db(), id, s)
    {
      if id !in grants {
        return Err(NoGrant);
      }
      if !s.ready {
        return Err(SessionNotReady);
      }
      if s.mode != Demo {
        return Err(DemoRequired);
      }
      var a := grants[id].artifact;
      if s.account != Some(a.account) || s.generation != a.generation || s.epoch != a.epoch {
        return Err(IdentityChanged);
      }
      r := Ok(grants[id]);
    }

    method Claim(id: string, s: SessionView, p: Payload, now: int) returns (r: Result<bool, Denial>)
      modifies this
      ensures (Db(), r) == ClaimEntry(old(Db()), id, s, p, now)
    {
      var v := Verified(id, s);
      if v.Err? {
        return Err(v.error);
      }
      var a := v.value.artifact;
      if Place !in a.permissions || p.intent.clientOrderId != a.clientOrderId || p.intent.symbol != a.symbol {
        return Err(ScopeMismatch);
      }
      if p.intent.volume.value != a.volume {
        return Err(VolumeMismatch);
      }
      if v.value.claim.Some? {
        if v.value.claim.value != PayloadHash(p) {
          return Err(PayloadConflict);
        }
        return Ok(false);
      }
      if v.value.killed || !(a.entryNotBefore <= now < a.entryExpiresAt) {
        return Err(EntryClosed);
      }
      grants := grants[id := v.value.(claim := Some(PayloadHash(p)))];
      r := Ok(true);
    }

    method Bind(id: string, s: SessionView, order: Option<int>, position: Option<int>) returns (r: Result<(), Denial>)
      modifies this
      ensures (Db(), r) == BindExposure(old(Db()), id, s, order, position)
    {
      if order.None? && position.None? {
        return Err(ExposureUnverified);
      }
      var v := Verified(id, s);
      if v.Err? {
        return Err(v.error);
      }
      var g := v.value;
      if g.claim.None? {
        return Err(ExposureUnverified);
      }
      if order.Some? {
        if order.value <= 0 || (g.orderId.Some? && g.orderId != order) {
          return Err(ExposureConflict);
        }
        g := g.(orderId := order);
      }
      if position.Some? {
        if position.value <= 0 || (g.positionId.Some? && g.positionId != position) {
          return Err(ExposureConflict);
        }
        g := g.(positionId := position);
      }
      grants := grants[id := g];
      r := Ok(());
    }

    method Reserve(id: string, s: SessionView, op: ExitOp, target: int, now: int)
      returns (r: Result<Option<ExitState>, Denial>)
      modifies this
      ensures (Db(), r) == ReserveExit(old(Db()), id, s, op, target, now)
    {
      var a := AuthorizeExit(Db(), id, s, op, target, now);
      if a.Err? {
        return Err(a.error);
      }
      var key := ExitKey(id, op, target);
      if key in exits {
        return Ok(Some(exits[key]));
      }
      exits := exits[key := ExitPending];
      r := Ok(None);
    }

    method Disable(id: string, reason: string)
      modifies this
      ensures Db() == DisableEntry(old(Db()), id, reason)
    {
      if id in grants {
        grants := grants[id := grants[id].(killed := true)];
        aborts := aborts + [Abort(id, grants[id].artifact.owner, reason)];
      }
    }

    method Finish(key: ExitKey, state: ExitState)
      requires !state.ExitPending?
      modifies this
      ensures Db() == FinishExit(old(Db()), key, state)
    {
      if key in exits && exits[key].ExitPending? {
        exits := exits[key := state];
      }
      if !state.ExitSucceeded? {
        Disable(key.grant, if state.ExitFailed? then "exit_failed" else "exit_indeterminate");
      }
    }
  }
}
