/**
 The Bitcoin adapter's `CohesionStore`: two tables updated in place. Every method is
 one transaction; its contract ties the tables and the answer to the value-level
 store, so everything proved of runs of that store holds of runs of this object.
 */
module BitcoinCohesionStore {
  import opened Prelude
  import opened Json
  import opened BitcoinStore
  import opened BitcoinStoreProofs

  class CohesionStore {
    const cfg: Config
    var rows: map<string, Row>
    var records: map<nat, TxRecord>
    var lastRecordId: nat

    function Tables(): Db
      reads this
    {
      Db(rows, records, lastRecordId)
    }

    ghost predicate Valid()
      reads this
    {
      DbOk(Tables())
    }

    constructor (ttl: int, claimLeaseSeconds: int)
      ensures Valid() && Tables() == Db(map[], map[], 0)
      ensures cfg == Config(ttl, Max(5, claimLeaseSeconds))
    {
      cfg := Config(ttl, Max(5, claimLeaseSeconds));
      rows, records, lastRecordId := map[], map[], 0;
    }

    method GetReplay(key: string, scope: string, hash: string, now: int) returns (answer: Option<Reply>)
      ensures answer == BitcoinStore.GetReplay(Tables(), key, scope, hash, now)
    {
      if key !in rows || rows[key].expiresAt <= now {
        return None;
      }
      var row := rows[key];
      if row.scope != scope || row.requestHash != hash {
        return Some(Refused(KeyReused));
      }
      if !Settled(row.state) {
        return None;
      }
      return Some(Replay(row.statusCode, row.response));
    }

    method ClaimIdempotent(key: string, scope: string, hash: string, drawn: string, now: int) returns (reply: Reply)
      requires Valid() && drawn != ""
      modifies this
      ensures Valid()
      ensures (Tables(), reply) == Exec(cfg, old(Tables()), ClaimOp(key, scope, hash, drawn), now)
    {
      hide DbOk;
      ExecKeepsOk(cfg, Tables(), ClaimOp(key, scope, hash, drawn), now);
      var live := key in rows;
      if live && rows[key].expiresAt <= now {
        live := false;  // deleted, and inserted again below
      }
      if !live {
        rows := rows[key := NewRow(cfg, scope, hash, drawn, now)];
        return Claim(drawn, State.Claimed, None);
      }
      var row := rows[key];
      if row.scope != scope || row.requestHash != hash {
        return Refused(KeyReused);
      }
      if Settled(row.state) {
        return Replay(row.statusCode, row.response);
      }
      if LeaseHeld(row, now) {
        return Refused(InProgress);
      }
      if !TakeOverGuard(row, hash, now) {
        return Refused(InProgress);
      }
      rows := rows[key := row.(claimToken := Some(drawn), claimedAt := now,
                               leaseExpiresAt := Some(now + cfg.claimLease), expiresAt := now + cfg.ttl)];
      return Claim(drawn, row.state, row.preparedRecordId);
    }

    method StoreResponse(key: string, scope: string, hash: string, token: string, statusCode: int, body: Json, now: int)
      returns (reply: Reply)
      requires Valid()
      modifies this`rows
      ensures Valid()
      ensures (Tables(), reply)
        == Exec(cfg, old(Tables()), StoreResponseOp(key, scope, hash, token, statusCode, body), now)
    {
      hide DbOk;
      ExecKeepsOk(cfg, Tables(), StoreResponseOp(key, scope, hash, token, statusCode, body), now);
      var matches := key in rows && rows[key].claimToken == Some(token) && rows[key].scope == scope
                     && rows[key].requestHash == hash && !Settled(rows[key].state);
      if !matches {
        return Refused(ClaimLost);
      }
      rows := rows[key := rows[key].(statusCode := statusCode, response := body, expiresAt := now + cfg.ttl,
                                     state := Succeeded, settledAt := Some(now), leaseExpiresAt := None,
                                     claimToken := None, lastError := None)];
      return Stored;
    }

    /** The transaction is written before the row points to it; both or neither are committed. */
    method SavePreparedBroadcast(key: string, token: string, hash: string, draft: Draft, now: int)
      returns (reply: Reply)
      requires Valid() && Sensible(SavePreparedOp(key, token, hash, draft))
      modifies this
      ensures Valid()
      ensures (Tables(), reply) == Exec(cfg, old(Tables()), SavePreparedOp(key, token, hash, draft), now)
    {
      hide DbOk;
      ExecKeepsOk(cfg, Tables(), SavePreparedOp(key, token, hash, draft), now);
      if key !in rows || rows[key].claimToken != Some(token) || rows[key].requestHash != hash {
        return Refused(ClaimLost);
      }
      var owner := rows[key];
      if owner.preparedRecordId.Some? {
        return LoadPreparedById(Tables(), owner.preparedRecordId.value, hash);
      }
      if owner.state != State.Claimed {
        return Refused(ClaimLost);
      }
      lastRecordId := lastRecordId + 1;
      var id := lastRecordId;
      records := records[id := DraftRecord(key, hash, draft, now)];
      rows := rows[key := owner.(state := State.Prepared, preparedRecordId := Some(id),
                                 paymentHash := Some(draft.expectedTxid),
                                 leaseExpiresAt := Some(now + cfg.claimLease), lastError := None)];
      return Loaded(DraftPrepared(id, hash, draft));
    }

    method LoadPreparedBroadcast(key: string, hash: string) returns (reply: Reply)
      requires Valid()
      ensures reply == LoadPrepared(Tables(), key, hash)
      ensures reply != Refused(PreparedCorrupt)
    {
      NeverCorrupt(cfg, Tables(), LoadPreparedOp(key, hash), 0);
      if key !in rows || rows[key].requestHash != hash || rows[key].preparedRecordId.None? {
        return NothingPrepared;
      }
      reply := LoadPreparedById(Tables(), rows[key].preparedRecordId.value, hash);
    }

    method MarkBroadcast(key: string, token: string, txid: string, now: int) returns (reply: Reply)
      requires Valid()
      modifies this`rows, this`records
      ensures Valid()
      ensures (Tables(), reply) == Exec(cfg, old(Tables()), MarkBroadcastOp(key, token, txid), now)
    {
      hide DbOk;
      ExecKeepsOk(cfg, Tables(), MarkBroadcastOp(key, token, txid), now);
      if key !in rows || rows[key].claimToken != Some(token) || rows[key].paymentHash != Some(txid)
         || rows[key].state !in {State.Prepared, State.Unknown, State.Broadcast}
      {
        return Refused(ClaimLost);
      }
      rows := rows[key := rows[key].(state := State.Broadcast, leaseExpiresAt := Some(now + cfg.claimLease),
                                     lastError := None)];
      Restamp(key, TxBroadcast, now);
      return Stored;
    }

    method Restamp(key: string, status: TxStatus, now: int)
      requires key in rows
      modifies this`records
      ensures records == SetRecordStatus(old(Tables()), key, status, now)
    {
      var id := rows[key].preparedRecordId;
      if id.Some? && id.value in records {
        records := records[id.value := records[id.value].(status := status, updatedAt := now)];
      }
    }

    method MarkFailed(key: string, token: string, statusCode: int, code: string, message: string, now: int)
      returns (reply: Reply)
      requires Valid()
      modifies this`rows
      ensures Valid()
      ensures (Tables(), reply) == Exec(cfg, old(Tables()), MarkFailedOp(key, token, statusCode, code, message), now)
    {
      hide DbOk;
      ExecKeepsOk(cfg, Tables(), MarkFailedOp(key, token, statusCode, code, message), now);
      if key !in rows || rows[key].claimToken != Some(token) || rows[key].state != State.Claimed {
        return Refused(ClaimLost);
      }
      rows := rows[key := FailedRow(rows[key], statusCode, code, message, now)];
      return Stored;
    }

    method MarkPreparedFailed(key: string, token: string, statusCode: int, code: string, message: string, now: int)
      returns (reply: Reply)
      requires Valid()
      modifies this`rows, this`records
      ensures Valid()
      ensures (Tables(), reply)
        == Exec(cfg, old(Tables()), MarkPreparedFailedOp(key, token, statusCode, code, message), now)
    {
      hide DbOk;
      ExecKeepsOk(cfg, Tables(), MarkPreparedFailedOp(key, token, statusCode, code, message), now);
      if key !in rows || rows[key].claimToken != Some(token)
         || rows[key].state !in {State.Prepared, State.Unknown}
      {
        return Refused(ClaimLost);
      }
      rows := rows[key := FailedRow(rows[key], statusCode, code, message, now)];
      Restamp(key, TxRejected, now);
      return Stored;
    }

    method MarkUnknown(key: string, token: string, txid: string, error: string, now: int) returns (reply: Reply)
      requires Valid()
      modifies this`rows
      ensures Valid()
      ensures (Tables(), reply) == Exec(cfg, old(Tables()), MarkUnknownOp(key, token, txid, error), now)
    {
      hide DbOk;
      ExecKeepsOk(cfg, Tables(), MarkUnknownOp(key, token, txid, error), now);
      if key !in rows || rows[key].claimToken != Some(token) || rows[key].paymentHash != Some(txid)
         || rows[key].state !in {State.Prepared, State.Broadcast, State.Unknown}
      {
        return Refused(ClaimLost);
      }
      var text := if error == "" then "Bitcoin broadcast result is unknown" else error;
      rows := rows[key := rows[key].(state := State.Unknown, leaseExpiresAt := Some(now + cfg.claimLease),
                                     lastError := Some(Clip(text)))];
      return Stored;
    }

    method HeartbeatClaim(key: string, token: string, now: int) returns (alive: bool)
      requires Valid()
      modifies this`rows
      ensures Valid()
      ensures (Tables(), Beat(alive)) == Exec(cfg, old(Tables()), HeartbeatOp(key, token), now)
    {
      hide DbOk;
      ExecKeepsOk(cfg, Tables(), HeartbeatOp(key, token), now);
      alive := key in rows && rows[key].claimToken == Some(token) && !Settled(rows[key].state);
      if alive {
        rows := rows[key := rows[key].(leaseExpiresAt := Some(now + cfg.claimLease))];
      }
    }

    method RecordTransaction(record: TxRecord) returns (id: nat)
      requires Valid()
      modifies this`records, this`lastRecordId
      ensures Valid()
      ensures (Tables(), Inserted(id)) == Exec(cfg, old(Tables()), RecordOp(record), 0)
    {
      hide DbOk;
      ExecKeepsOk(cfg, Tables(), RecordOp(record), 0);
      lastRecordId := lastRecordId + 1;
      id := lastRecordId;
      records := records[id := record];
    }

    method PruneExpired(now: int) returns (deleted: nat)
      requires Valid()
      modifies this`rows
      ensures Valid()
      ensures Tables() == Exec(cfg, old(Tables()), PruneOp, now).0
      ensures deleted == |old(rows)| - |rows|
    {
      hide DbOk;
      ExecKeepsOk(cfg, Tables(), PruneOp, now);
      PruneCounts(Tables(), now);
      deleted := |set k | k in rows && rows[k].expiresAt <= now|;
      rows := map k | k in rows && rows[k].expiresAt > now :: rows[k];
    }
  }
}
