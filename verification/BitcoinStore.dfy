/**
 The Bitcoin adapter's store as a value: two tables, and one function per store
 method giving the tables after the method's single transaction and its reply.
 `now` is the clock reading and `token` the identifier the method draws.
 */
module BitcoinStore {
  import opened Prelude
  import opened Json

  datatype Config = Config(ttl: int, claimLease: int)

  datatype State = Claimed | Prepared | Broadcast | Unknown | Succeeded | FailedFinal

  predicate Settled(s: State) {
    s == Succeeded || s == FailedFinal
  }

  /** One row of `idempotency_records`. */
  datatype Row = Row(
    scope: string, requestHash: string, statusCode: int, response: Json,
    createdAt: int, expiresAt: int,
    claimToken: Option<string>, claimedAt: int, leaseExpiresAt: Option<int>,
    state: State, paymentHash: Option<string>, settledAt: Option<int>,
    preparedRecordId: Option<nat>, lastError: Option<string>)

  datatype Kind = PsbtKind | BroadcastKind

  datatype TxStatus = Created | TxPrepared | TxBroadcast | TxRejected

  /** One row of `transaction_records`. */
  datatype TxRecord = TxRecord(
    wallet: string, kind: Kind, requestHash: string, idempotencyKey: Option<string>,
    outputs: Json, psbt: string, rawTx: string, txid: string, status: TxStatus,
    feeSats: int, totalOutputSats: int, createdAt: int, updatedAt: int)

  datatype Db = Db(rows: map<string, Row>, records: map<nat, TxRecord>, lastRecordId: nat)

  /** What the send handler hands over to be persisted. */
  datatype Draft = Draft(
    wallet: string, outputs: Json, psbt: string, rawTx: string, expectedTxid: string,
    feeSats: int, totalOutputSats: int)

  datatype PreparedBroadcast = PreparedBroadcast(
    recordId: nat, wallet: string, requestHash: string, outputs: Json, psbt: string,
    rawTx: string, expectedTxid: string, feeSats: int, totalOutputSats: int)

  datatype Refusal = KeyReused | InProgress | ClaimLost | PreparedCorrupt

  datatype Reply =
    | Claim(token: string, state: State, preparedRecordId: Option<nat>)
    | Replay(statusCode: int, body: Json)
    | Refused(why: Refusal)
    | Loaded(prepared: PreparedBroadcast)
    | NothingPrepared
    | Beat(alive: bool)
    | Inserted(recordId: nat)
    | Pruned
    | Stored

  /** The store's methods, with their arguments. */
  datatype Op =
    | ClaimOp(key: string, scope: string, hash: string, drawn: string)
    | StoreResponseOp(key: string, scope: string, hash: string, token: string, statusCode: int, body: Json)
    | SavePreparedOp(key: string, token: string, hash: string, draft: Draft)
    | LoadPreparedOp(key: string, hash: string)
    | MarkBroadcastOp(key: string, token: string, txid: string)
    | MarkFailedOp(key: string, token: string, statusCode: int, code: string, message: string)
    | MarkPreparedFailedOp(key: string, token: string, statusCode: int, code: string, message: string)
    | MarkUnknownOp(key: string, token: string, txid: string, error: string)
    | HeartbeatOp(key: string, token: string)
    | RecordOp(record: TxRecord)
    | PruneOp

  function Clip(message: string): (clipped: string)
    ensures clipped <= message && |clipped| == if |message| < 500 then |message| else 500
  {
    if |message| <= 500 then message else message[..500]
  }

  /** Python's truth test on a nullable text column. */
  predicate Truthy(text: Option<string>) {
    text.Some? && text.value != ""
  }

  /** The lease test `claim_idempotent` makes in Python. */
  predicate LeaseHeld(row: Row, now: int) {
    Truthy(row.claimToken) && (if row.leaseExpiresAt.Some? then row.leaseExpiresAt.value else 0) > now
  }

  /** The guard of the takeover UPDATE, evaluated by SQLite. */
  predicate TakeOverGuard(row: Row, hash: string, now: int) {
    row.requestHash == hash
    && (row.claimToken.None? || row.leaseExpiresAt.None? || row.leaseExpiresAt.value <= now)
  }

  function NewRow(cfg: Config, scope: string, hash: string, token: string, now: int): Row {
    Row(scope, hash, -1, Obj([]), now, now + cfg.ttl, Some(token), now, Some(now + cfg.claimLease),
        State.Claimed, None, None, None, None)
  }

  function ClaimIdempotent(cfg: Config, db: Db, key: string, scope: string, hash: string, drawn: string, now: int)
    : (Db, Reply)
  {
    if key !in db.rows || db.rows[key].expiresAt <= now then
      (db.(rows := db.rows[key := NewRow(cfg, scope, hash, drawn, now)]), Claim(drawn, State.Claimed, None))
    else
      var row := db.rows[key];
      if row.scope != scope || row.requestHash != hash then (db, Refused(KeyReused))
      else if Settled(row.state) then (db, Replay(row.statusCode, row.response))
      else if LeaseHeld(row, now) then (db, Refused(InProgress))
      else if !TakeOverGuard(row, hash, now) then (db, Refused(InProgress))
      else
        (db.(rows := db.rows[key := row.(claimToken := Some(drawn), claimedAt := now,
                                         leaseExpiresAt := Some(now + cfg.claimLease),
                                         expiresAt := now + cfg.ttl)]),
         Claim(drawn, row.state, row.preparedRecordId))
  }

  function GetReplay(db: Db, key: string, scope: string, hash: string, now: int): Option<Reply> {
    if key !in db.rows || db.rows[key].expiresAt <= now then None
    else
      var row := db.rows[key];
      if row.scope != scope || row.requestHash != hash then Some(Refused(KeyReused))
      else if Settled(row.state) then Some(Replay(row.statusCode, row.response))
      else None
  }

  /** `WHERE key = ? AND claim_token = ?` */
  predicate OwnedBy(db: Db, key: string, token: string) {
    key in db.rows && db.rows[key].claimToken == Some(token)
  }

  function StoreResponse(cfg: Config, db: Db, key: string, scope: string, hash: string, token: string,
                         statusCode: int, body: Json, now: int): (Db, Reply)
  {
    if OwnedBy(db, key, token) && db.rows[key].scope == scope && db.rows[key].requestHash == hash
       && !Settled(db.rows[key].state)
    then
      (db.(rows := db.rows[key := db.rows[key].(statusCode := statusCode, response := body,
                                                expiresAt := now + cfg.ttl, state := Succeeded,
                                                settledAt := Some(now), leaseExpiresAt := None,
                                                claimToken := None, lastError := None)]),
       Stored)
    else (db, Refused(ClaimLost))
  }

  function LoadPreparedById(db: Db, id: nat, hash: string): Reply {
    if id !in db.records || db.records[id].kind != BroadcastKind || db.records[id].requestHash != hash
       || db.records[id].psbt == "" || db.records[id].rawTx == "" || db.records[id].txid == ""
    then Refused(PreparedCorrupt)
    else
      var r := db.records[id];
      Loaded(PreparedBroadcast(id, r.wallet, r.requestHash, r.outputs, r.psbt, r.rawTx, r.txid,
                               r.feeSats, r.totalOutputSats))
  }

  function LoadPrepared(db: Db, key: string, hash: string): Reply {
    if key !in db.rows || db.rows[key].requestHash != hash || db.rows[key].preparedRecordId.None?
    then NothingPrepared
    else LoadPreparedById(db, db.rows[key].preparedRecordId.value, hash)
  }

  function DraftRecord(key: string, hash: string, d: Draft, now: int): TxRecord {
    TxRecord(d.wallet, BroadcastKind, hash, Some(key), d.outputs, d.psbt, d.rawTx, d.expectedTxid,
             TxPrepared, d.feeSats, d.totalOutputSats, now, now)
  }

  function DraftPrepared(id: nat, hash: string, d: Draft): PreparedBroadcast {
    PreparedBroadcast(id, d.wallet, hash, d.outputs, d.psbt, d.rawTx, d.expectedTxid, d.feeSats, d.totalOutputSats)
  }

  function SavePrepared(cfg: Config, db: Db, key: string, token: string, hash: string, d: Draft, now: int)
    : (Db, Reply)
  {
    if !OwnedBy(db, key, token) || db.rows[key].requestHash != hash then (db, Refused(ClaimLost))
    else if db.rows[key].preparedRecordId.Some? then
      (db, LoadPreparedById(db, db.rows[key].preparedRecordId.value, hash))
    else if db.rows[key].state != State.Claimed then (db, Refused(ClaimLost))
    else
      var id := db.lastRecordId + 1;
      var row := db.rows[key].(state := State.Prepared, preparedRecordId := Some(id),
                               paymentHash := Some(d.expectedTxid),
                               leaseExpiresAt := Some(now + cfg.claimLease), lastError := None);
      (Db(db.rows[key := row], db.records[id := DraftRecord(key, hash, d, now)], id),
       Loaded(DraftPrepared(id, hash, d)))
  }

  /** `UPDATE transaction_records SET status WHERE id = (the key's prepared record)` */
  function SetRecordStatus(db: Db, key: string, status: TxStatus, now: int): map<nat, TxRecord>
    requires key in db.rows
  {
    var id := db.rows[key].preparedRecordId;
    if id.Some? && id.value in db.records
    then db.records[id.value := db.records[id.value].(status := status, updatedAt := now)]
    else db.records
  }

  function MarkBroadcast(cfg: Config, db: Db, key: string, token: string, txid: string, now: int): (Db, Reply) {
    if OwnedBy(db, key, token) && db.rows[key].paymentHash == Some(txid)
       && db.rows[key].state in {State.Prepared, State.Unknown, State.Broadcast}
    then
      (db.(rows := db.rows[key := db.rows[key].(state := State.Broadcast,
                                                leaseExpiresAt := Some(now + cfg.claimLease),
                                                lastError := None)],
           records := SetRecordStatus(db, key, TxBroadcast, now)),
       Stored)
    else (db, Refused(ClaimLost))
  }

  /** The settled row both failure methods write. */
  function FailedRow(row: Row, statusCode: int, code: string, message: string, now: int): Row {
    row.(statusCode := statusCode,
         response := Obj([Field("success", Bool(false)), Field("errorCode", Str(code)),
                          Field("message", Str(message))]),
         state := FailedFinal, settledAt := Some(now), leaseExpiresAt := None, claimToken := None,
         lastError := Some(Clip(message)))
  }

  function MarkFailed(db: Db, key: string, token: string, statusCode: int, code: string, message: string, now: int)
    : (Db, Reply)
  {
    if OwnedBy(db, key, token) && db.rows[key].state == State.Claimed
    then (db.(rows := db.rows[key := FailedRow(db.rows[key], statusCode, code, message, now)]), Stored)
    else (db, Refused(ClaimLost))
  }

  function MarkPreparedFailed(db: Db, key: string, token: string, statusCode: int, code: string, message: string,
                              now: int): (Db, Reply)
  {
    if OwnedBy(db, key, token) && db.rows[key].state in {State.Prepared, State.Unknown}
    then
      (db.(rows := db.rows[key := FailedRow(db.rows[key], statusCode, code, message, now)],
           records := SetRecordStatus(db, key, TxRejected, now)),
       Stored)
    else (db, Refused(ClaimLost))
  }

  function MarkUnknown(cfg: Config, db: Db, key: string, token: string, txid: string, error: string, now: int)
    : (Db, Reply)
  {
    if OwnedBy(db, key, token) && db.rows[key].paymentHash == Some(txid)
       && db.rows[key].state in {State.Prepared, State.Broadcast, State.Unknown}
    then
      var text := if error == "" then "Bitcoin broadcast result is unknown" else error;
      (db.(rows := db.rows[key := db.rows[key].(state := State.Unknown,
                                                leaseExpiresAt := Some(now + cfg.claimLease),
                                                lastError := Some(Clip(text)))]),
       Stored)
    else (db, Refused(ClaimLost))
  }

  function Heartbeat(cfg: Config, db: Db, key: string, token: string, now: int): (Db, Reply) {
    if OwnedBy(db, key, token) && !Settled(db.rows[key].state)
    then
      (db.(rows := db.rows[key := db.rows[key].(leaseExpiresAt := Some(now + cfg.claimLease))]), Beat(true))
    else (db, Beat(false))
  }

  function RecordTransaction(db: Db, record: TxRecord): (Db, Reply) {
    var id := db.lastRecordId + 1;
    (db.(records := db.records[id := record], lastRecordId := id), Inserted(id))
  }

  function PruneExpired(db: Db, now: int): (Db, Reply) {
    (db.(rows := map k | k in db.rows && db.rows[k].expiresAt > now :: db.rows[k]), Pruned)
  }

  /** One store call: one transaction. */
  function Exec(cfg: Config, db: Db, op: Op, now: int): (Db, Reply) {
    match op
    case ClaimOp(k, s, h, t) => ClaimIdempotent(cfg, db, k, s, h, t, now)
    case StoreResponseOp(k, s, h, t, c, b) => StoreResponse(cfg, db, k, s, h, t, c, b, now)
    case SavePreparedOp(k, t, h, d) => SavePrepared(cfg, db, k, t, h, d, now)
    case LoadPreparedOp(k, h) => (db, LoadPrepared(db, k, h))
    case MarkBroadcastOp(k, t, x) => MarkBroadcast(cfg, db, k, t, x, now)
    case MarkFailedOp(k, t, c, e, m) => MarkFailed(db, k, t, c, e, m, now)
    case MarkPreparedFailedOp(k, t, c, e, m) => MarkPreparedFailed(db, k, t, c, e, m, now)
    case MarkUnknownOp(k, t, x, e) => MarkUnknown(cfg, db, k, t, x, e, now)
    case HeartbeatOp(k, t) => Heartbeat(cfg, db, k, t, now)
    case RecordOp(r) => RecordTransaction(db, r)
    case PruneOp => PruneExpired(db, now)
  }

  // ---------------------------------------------------------------- invariant

  predicate Complete(r: TxRecord) {
    r.kind == BroadcastKind && r.psbt != "" && r.rawTx != "" && r.txid != ""
  }

  /** What every row satisfies on its own, given the transaction records. */
  ghost predicate RowOk(row: Row, records: map<nat, TxRecord>) {
    && (Settled(row.state) ==> row.claimToken.None? && row.leaseExpiresAt.None?)
    && (!Settled(row.state) ==> Truthy(row.claimToken) && row.leaseExpiresAt.Some?)
    && (row.state == State.Claimed ==> row.preparedRecordId.None? && row.paymentHash.None?)
    && (row.state in {State.Prepared, State.Broadcast, State.Unknown} ==> row.preparedRecordId.Some?)
    && (row.preparedRecordId.Some? ==>
          var id := row.preparedRecordId.value;
          && id in records && Complete(records[id])
          && records[id].requestHash == row.requestHash && row.paymentHash == Some(records[id].txid)
          && (row.state == State.Prepared ==> records[id].status == TxPrepared)
          && (row.state == State.Broadcast ==> records[id].status == TxBroadcast)
          && (row.state == State.Unknown ==> records[id].status in {TxPrepared, TxBroadcast})
          && (row.state == FailedFinal ==> records[id].status == TxRejected))
  }

  /** No two rows share a prepared record. */
  ghost predicate Unshared(rows: map<string, Row>) {
    forall k, l :: k in rows && l in rows && k != l && rows[k].preparedRecordId.Some?
      ==> rows[k].preparedRecordId != rows[l].preparedRecordId
  }

  ghost predicate DbOk(db: Db) {
    && (forall k :: k in db.rows ==> RowOk(db.rows[k], db.records))
    && Unshared(db.rows)
    && (forall id :: id in db.records ==> id <= db.lastRecordId)
  }

  /** What the callers guarantee: drawn tokens and persisted drafts are not empty. */
  predicate Sensible(op: Op) {
    match op
    case ClaimOp(_, _, _, t) => t != ""
    case SavePreparedOp(_, _, _, d) => d.psbt != "" && d.rawTx != "" && d.expectedTxid != ""
    case _ => true
  }

  /** Record fields that never change once written. */
  predicate SameTx(a: TxRecord, b: TxRecord) {
    b == a.(status := b.status, updatedAt := b.updatedAt)
  }
}
