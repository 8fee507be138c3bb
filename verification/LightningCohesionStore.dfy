/**
 The Lightning adapter's `CohesionStore`: one table updated in place, one statement or
 transaction per method.
 */
module LightningCohesionStore {
  import opened Prelude
  import opened Json
  import opened LightningStore

  class CohesionStore {
    const lease: int
    var table: Table

    ghost predicate Valid()
      reads this
    {
      TableOk(table)
    }

    constructor (claimLeaseSeconds: int)
      ensures Valid() && table == map[] && lease == Max(5, claimLeaseSeconds)
    {
      lease := Max(5, claimLeaseSeconds);
      table := map[];
    }

    method ClaimIdempotent(key: string, fp: Fingerprint, paymentHash: Option<string>, network: string, drawn: string,
                           now: int) returns (reply: Reply)
      requires Valid() && drawn != ""
      modifies this
      ensures Valid()
      ensures (table, reply) == Exec(lease, old(table), ClaimOp(key, fp, paymentHash, network, drawn), now)
    {
      if key !in table {
        table := table[key := NewRow(lease, fp, paymentHash, network, drawn, now)];
        return Claim(drawn, Claimed, paymentHash);
      }
      var row := table[key];
      if row.fingerprint != fp {
        return Refused(Conflict);
      }
      if Settled(row.state) {
        return Replay(row.response, row.statusCode);
      }
      if LeaseHeld(row, now) {
        return Refused(InProgress);
      }
      if !TakeOverGuard(row, fp, now) {
        return Refused(InProgress);
      }
      table := table[key := row.(claimToken := Some(drawn), claimedAt := now, leaseExpiresAt := Some(now + lease))];
      return Claim(drawn, row.state, if row.paymentHash != "" then Some(row.paymentHash) else paymentHash);
    }

    method SaveIdempotent(key: string, fp: Fingerprint, token: string, response: Json, statusCode: int, now: int)
      returns (reply: Reply)
      requires Valid()
      modifies this
      ensures Valid()
      ensures (table, reply) == Exec(lease, old(table), SaveOp(key, fp, token, response, statusCode), now)
    {
      var safe := StripKeys.Strip(response, RESPONSE_SENSITIVE_KEYS);
      if !OwnedBy(table, key, fp, token) || table[key].state !in {Claimed, Submitted, Unknown} {
        return Refused(ClaimLost);
      }
      table := table[key := table[key].(statusCode := statusCode, response := safe, state := Succeeded,
                                        settledAt := Some(now), claimToken := None, leaseExpiresAt := None,
                                        lastError := None)];
      return Stored;
    }

    method MarkSubmitted(key: string, fp: Fingerprint, token: string, paymentHash: string, now: int)
      returns (reply: Reply)
      requires Valid()
      modifies this
      ensures Valid()
      ensures (table, reply) == Exec(lease, old(table), MarkSubmittedOp(key, fp, token, paymentHash), now)
    {
      if !OwnedBy(table, key, fp, token) || table[key].state != Claimed {
        return Refused(ClaimLost);
      }
      table := table[key := table[key].(state := Submitted, paymentHash := paymentHash,
                                        leaseExpiresAt := Some(now + lease))];
      return Stored;
    }

    method MarkFailed(key: string, fp: Fingerprint, token: string, code: string, message: string, statusCode: int,
                      now: int) returns (reply: Reply)
      requires Valid()
      modifies this
      ensures Valid()
      ensures (table, reply) == Exec(lease, old(table), MarkFailedOp(key, fp, token, code, message, statusCode), now)
    {
      if !OwnedBy(table, key, fp, token) || table[key].state !in {Claimed, Submitted, Unknown} {
        return Refused(ClaimLost);
      }
      table := table[key := table[key].(statusCode := statusCode, response := FailureBody(code, message),
                                        state := FailedFinal, settledAt := Some(now), claimToken := None,
                                        leaseExpiresAt := None, lastError := Some(Clip(message)))];
      return Stored;
    }

    method MarkUnknown(key: string, fp: Fingerprint, token: string, paymentHash: string, error: string, now: int)
      returns (reply: Reply)
      requires Valid()
      modifies this
      ensures Valid()
      ensures (table, reply) == Exec(lease, old(table), MarkUnknownOp(key, fp, token, paymentHash, error), now)
    {
      if !OwnedBy(table, key, fp, token) || table[key].state !in {Submitted, Unknown} {
        return Refused(ClaimLost);
      }
      var text := if error == "" then "Lightning payment result is unknown" else error;
      table := table[key := table[key].(state := Unknown, paymentHash := paymentHash,
                                        leaseExpiresAt := Some(now + lease), lastError := Some(Clip(text)))];
      return Stored;
    }

    method HeartbeatClaim(key: string, fp: Fingerprint, token: string, now: int) returns (alive: bool)
      requires Valid()
      modifies this
      ensures Valid()
      ensures (table, Beat(alive)) == Exec(lease, old(table), HeartbeatOp(key, fp, token), now)
    {
      alive := OwnedBy(table, key, fp, token) && table[key].state in {Claimed, Submitted, Unknown};
      if alive {
        table := table[key := table[key].(leaseExpiresAt := Some(now + lease))];
      }
    }

    method State(key: string) returns (row: Option<Row>)
      ensures (table, Read(row)) == Exec(lease, table, StateOp(key), 0)
    {
      row := if key in table then Some(table[key]) else None;
    }
  }
}
