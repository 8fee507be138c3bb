/**
 The Lightning adapter's store as a value: one table whose rows are never deleted, and
 one function per method giving the table after the method's statement and its reply.
 */
module LightningStore {
  import opened Prelude
  import opened Json
  import StripKeys

  /** The text the request fingerprint is the digest of, one part per line. */
  datatype Fingerprint = Fingerprint(verb: string, path: string, body: string)

  datatype State = Claimed | Submitted | Unknown | Succeeded | FailedFinal

  predicate Settled(s: State) {
    s == Succeeded || s == FailedFinal
  }

  /** One row of `idempotency`. */
  datatype Row = Row(
    fingerprint: Fingerprint, statusCode: int, response: Json, createdAt: int,
    claimToken: Option<string>, claimedAt: int, leaseExpiresAt: Option<int>,
    state: State, paymentHash: string, network: string, settledAt: Option<int>, lastError: Option<string>)

  type Table = map<string, Row>

  datatype Refusal = Conflict | InProgress | ClaimLost

  datatype Reply =
    | Claim(token: string, state: State, paymentHash: Option<string>)
    | Replay(body: Json, statusCode: int)
    | Refused(why: Refusal)
    | Beat(alive: bool)
    | Read(row: Option<Row>)
    | Stored

  datatype Op =
    | ClaimOp(key: string, fingerprint: Fingerprint, invoiceHash: Option<string>, network: string, drawn: string)
    | SaveOp(key: string, fingerprint: Fingerprint, token: string, response: Json, statusCode: int)
    | MarkSubmittedOp(key: string, fingerprint: Fingerprint, token: string, paymentHash: string)
    | MarkFailedOp(key: string, fingerprint: Fingerprint, token: string, code: string, message: string, statusCode: int)
    | MarkUnknownOp(key: string, fingerprint: Fingerprint, token: string, paymentHash: string, error: string)
    | HeartbeatOp(key: string, fingerprint: Fingerprint, token: string)
    | StateOp(key: string)

  /** The response fields a replay never shows. */
  const RESPONSE_SENSITIVE_KEYS := {"payment_preimage", "payment_route"}

  function Clip(message: string): (clipped: string)
    ensures clipped <= message && |clipped| == if |message| < 500 then |message| else 500
  {
    if |message| <= 500 then message else message[..500]
  }

  predicate Truthy(text: Option<string>) {
    text.Some? && text.value != ""
  }

  /** The lease test in Python. */
  predicate LeaseHeld(row: Row, now: int) {
    Truthy(row.claimToken) && (if row.leaseExpiresAt.Some? then row.leaseExpiresAt.value else 0) > now
  }

  /** The guard of the takeover UPDATE in SQL. */
  predicate TakeOverGuard(row: Row, fingerprint: Fingerprint, now: int) {
    row.fingerprint == fingerprint
    && (row.claimToken.None? || row.leaseExpiresAt.None? || row.leaseExpiresAt.value <= now)
  }

  function NewRow(lease: int, fp: Fingerprint, paymentHash: Option<string>, network: string, token: string, now: int)
    : Row
  {
    Row(fp, -1, Obj([]), now, Some(token), now, Some(now + lease), Claimed,
        if paymentHash.Some? then paymentHash.value else "", network, None, None)
  }

  function ClaimIdempotent(lease: int, table: Table, key: string, fp: Fingerprint, paymentHash: Option<string>,
                           network: string, drawn: string, now: int): (Table, Reply)
  {
    if key !in table then
      (table[key := NewRow(lease, fp, paymentHash, network, drawn, now)], Claim(drawn, Claimed, paymentHash))
    else
      var row := table[key];
      if row.fingerprint != fp then (table, Refused(Conflict))
      else if Settled(row.state) then (table, Replay(row.response, row.statusCode))
      else if LeaseHeld(row, now) then (table, Refused(InProgress))
      else if !TakeOverGuard(row, fp, now) then (table, Refused(InProgress))
      else
        (table[key := row.(claimToken := Some(drawn), claimedAt := now, leaseExpiresAt := Some(now + lease))],
         Claim(drawn, row.state, if row.paymentHash != "" then Some(row.paymentHash) else paymentHash))
  }

  /** `WHERE key = ? AND fingerprint = ? AND claim_token = ?` */
  predicate OwnedBy(table: Table, key: string, fp: Fingerprint, token: string) {
    key in table && table[key].fingerprint == fp && table[key].claimToken == Some(token)
  }

  function SaveIdempotent(table: Table, key: string, fp: Fingerprint, token: string, response: Json, statusCode: int,
                          now: int): (Table, Reply)
  {
    if OwnedBy(table, key, fp, token) && table[key].state in {Claimed, Submitted, Unknown} then
      (table[key := table[key].(statusCode := statusCode,
                                response := StripKeys.Strip(response, RESPONSE_SENSITIVE_KEYS),
                                state := Succeeded, settledAt := Some(now), claimToken := None,
                                leaseExpiresAt := None, lastError := None)],
       Stored)
    else (table, Refused(ClaimLost))
  }

  function MarkSubmitted(lease: int, table: Table, key: string, fp: Fingerprint, token: string, paymentHash: string,
                         now: int): (Table, Reply)
  {
    if OwnedBy(table, key, fp, token) && table[key].state == Claimed then
      (table[key := table[key].(state := Submitted, paymentHash := paymentHash, leaseExpiresAt := Some(now + lease))],
       Stored)
    else (table, Refused(ClaimLost))
  }

  function FailureBody(code: string, message: string): Json {
    Obj([Field("success", Bool(false)),
         Field("error", Obj([Field("code", Str(code)), Field("message", Str(message))]))])
  }

  function MarkFailed(table: Table, key: string, fp: Fingerprint, token: string, code: string, message: string,
                      statusCode: int, now: int): (Table, Reply)
  {
    if OwnedBy(table, key, fp, token) && table[key].state in {Claimed, Submitted, Unknown} then
      (table[key := table[key].(statusCode := statusCode, response := FailureBody(code, message), state := FailedFinal,
                                settledAt := Some(now), claimToken := None, leaseExpiresAt := None,
                                lastError := Some(Clip(message)))],
       Stored)
    else (table, Refused(ClaimLost))
  }

  function MarkUnknown(lease: int, table: Table, key: string, fp: Fingerprint, token: string, paymentHash: string,
                       error: string, now: int): (Table, Reply)
  {
    if OwnedBy(table, key, fp, token) && table[key].state in {Submitted, Unknown} then
      var text := if error == "" then "Lightning payment result is unknown" else error;
      (table[key := table[key].(state := Unknown, paymentHash := paymentHash, leaseExpiresAt := Some(now + lease),
                                lastError := Some(Clip(text)))],
       Stored)
    else (table, Refused(ClaimLost))
  }

  function Heartbeat(lease: int, table: Table, key: string, fp: Fingerprint, token: string, now: int): (Table, Reply) {
    if OwnedBy(table, key, fp, token) && table[key].state in {Claimed, Submitted, Unknown} then
      (table[key := table[key].(leaseExpiresAt := Some(now + lease))], Beat(true))
    else (table, Beat(false))
  }

  function Exec(lease: int, table: Table, op: Op, now: int): (Table, Reply) {
    match op
    case ClaimOp(k, fp, h, net, t) => ClaimIdempotent(lease, table, k, fp, h, net, t, now)
    case SaveOp(k, fp, t, r, c) => SaveIdempotent(table, k, fp, t, r, c, now)
    case MarkSubmittedOp(k, fp, t, h) => MarkSubmitted(lease, table, k, fp, t, h, now)
    case MarkFailedOp(k, fp, t, e, m, c) => MarkFailed(table, k, fp, t, e, m, c, now)
    case MarkUnknownOp(k, fp, t, h, e) => MarkUnknown(lease, table, k, fp, t, h, e, now)
    case HeartbeatOp(k, fp, t) => Heartbeat(lease, table, k, fp, t, now)
    case StateOp(k) => (table, Read(if k in table then Some(table[k]) else None))
  }

  ghost predicate RowOk(row: Row) {
    && (Settled(row.state) ==> row.claimToken.None? && row.leaseExpiresAt.None?)
    && (!Settled(row.state) ==> Truthy(row.claimToken) && row.leaseExpiresAt.Some?)
  }

  ghost predicate TableOk(table: Table) {
    forall k :: k in table ==> RowOk(table[k])
  }

  predicate Sensible(op: Op) {
    op.ClaimOp? ==> op.drawn != ""
  }
}
