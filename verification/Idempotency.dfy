/** The durable request records: one per client order, kept across restarts. */
module Idempotency {
  import opened Wrappers
  import opened Session
  import opened Orders

  datatype RecordState = PendingRecord | Succeeded | Failed | Indeterminate

  // What a finished request stores: the broker's answer, an error, or what a recovery lookup observed.
  datatype Outcome =
    | Answered(order: int, retcode: int)
    | Errored(code: Option<int>)
    | Recovered(order: int, status: OrderStatus)

  datatype Identity = Identity(generation: nat, account: Token)

  datatype IdemRecord = IdemRecord(
    clientOrderId: string, hash: PayloadHash, state: RecordState, outcome: Option<Outcome>,
    requestId: string, payload: Option<Payload>, session: Option<Identity>)

  type IdemDb = map<string, IdemRecord>

  datatype Conflict = IdempotencyConflict

  // Ok((record, true)) when newly reserved, Ok((record, false)) on a replay of the same payload.
  function ReserveRecord(db: IdemDb, id: string, hash: PayloadHash, requestId: string, p: Payload,
                         session: Identity): (IdemDb, Result<(IdemRecord, bool), Conflict>) {
    if id in db then (db, if db[id].hash == hash then Ok((db[id], false)) else Err(IdempotencyConflict))
    else
      var r := IdemRecord(id, hash, PendingRecord, None, requestId, Some(p), Some(session));
      (db[id := r], Ok((r, true)))
  }

  function FinishRecord(db: IdemDb, id: string, state: RecordState, outcome: Outcome): IdemDb {
    if id in db then db[id := db[id].(state := state, outcome := Some(outcome))] else db
  }

  // Records are never deleted or re-keyed; only state and outcome may change, and they may change again.
  predicate Persists(a: IdemDb, b: IdemDb) {
    forall id | id in a :: id in b && b[id] == a[id].(state := b[id].state, outcome := b[id].outcome)
  }

  /** A finished state is not stable: a later finish replaces it. */
  lemma FinishOverwrites(db: IdemDb, id: string, s: RecordState, o: Outcome, t: RecordState, q: Outcome)
    requires id in db
    ensures FinishRecord(FinishRecord(db, id, s, o), id, t, q) == FinishRecord(db, id, t, q)
    ensures Persists(db, FinishRecord(db, id, s, o))
  {
    assert FinishRecord(FinishRecord(db, id, s, o), id, t, q).Keys == FinishRecord(db, id, t, q).Keys;
  }

  /** Whatever finishes follow, the first request for a client order stays findable: a replay of its payload is handed
      the latest state and outcome and is not new, and another payload conflicts. */
  lemma {:induction false} ReplayFindsLatest(
    db: IdemDb, id: string, request: string, p: Payload, session: Identity, finishes: seq<(RecordState, Outcome)>)
    requires id !in db
    ensures var (db1, first) := ReserveRecord(db, id, PayloadHash(p), request, p, session);
            var end := FinishAll(db1, id, finishes);
            && first.Ok? && first.value.1
            && id in end
            && end[id] == (if finishes == [] then first.value.0
                           else first.value.0.(state := finishes[|finishes| - 1].0,
                                               outcome := Some(finishes[|finishes| - 1].1)))
            && (forall q: Payload, r, s ::
                  ReserveRecord(end, id, PayloadHash(q), r, q, s).1
                    == if q == p then Ok((end[id], false)) else Err(IdempotencyConflict))
  {
    if finishes != [] {
      ReplayFindsLatest(db, id, request, p, session, finishes[..|finishes| - 1]);
    }
  }

  function FinishAll(db: IdemDb, id: string, finishes: seq<(RecordState, Outcome)>): IdemDb {
    if finishes == [] then db
    else FinishRecord(FinishAll(db, id, finishes[..|finishes| - 1]), id, finishes[|finishes| - 1].0,
                      finishes[|finishes| - 1].1)
  }

  class IdempotencyStore {
    var records: map<string, IdemRecord>

    constructor ()
      ensures records == map[]
    {
      records := map[];
    }

    method Reserve(id: string, hash: PayloadHash, requestId: string, p: Payload, session: Identity)
      returns (r: Result<(IdemRecord, bool), Conflict>)
      modifies this
      ensures (records, r) == ReserveRecord(old(records), id, hash, requestId, p, session)
    {
      if id in records {
        var record := records[id];
        if record.hash != hash {
          return Err(IdempotencyConflict);
        }
        return Ok((record, false));
      }
      var record := IdemRecord(id, hash, PendingRecord, None, requestId, Some(p), Some(session));
      records := records[id := record];
      r := Ok((record, true));
    }

    method Finish(id: string, state: RecordState, outcome: Outcome)
      requires !state.PendingRecord?
      modifies this
      ensures records == FinishRecord(old(records), id, state, outcome)
    {
      if id in records {
        records := records[id := records[id].(state := state, outcome := Some(outcome))];
      }
    }

    method Get(id: string) returns (r: Option<IdemRecord>)
      ensures r == if id in records then Some(records[id]) else None
    {
      r := if id in records then Some(records[id]) else None;
    }
  }
}
