/** What every call of the Bitcoin store keeps, refuses and refines. */
module BitcoinStoreProofs {
  import opened Prelude
  import opened Json
  import opened BitcoinStore
  import FR = FencedRegister

  // ------------------------------------------------------------ the invariant

  /** A row update that leaves the prepared record alone keeps the tables consistent. */
  lemma UpdateKeepsOk(db: Db, key: string, row: Row)
    requires DbOk(db) && key in db.rows && RowOk(row, db.records)
    requires row.preparedRecordId == db.rows[key].preparedRecordId
    ensures DbOk(db.(rows := db.rows[key := row]))
  {
  }

  /** The same for an update that also restamps the key's own transaction record. */
  lemma RestampKeepsOk(db: Db, key: string, row: Row, status: TxStatus, now: int)
    requires DbOk(db) && key in db.rows
    requires row.preparedRecordId == db.rows[key].preparedRecordId
    requires RowOk(row, SetRecordStatus(db, key, status, now))
    ensures DbOk(Db(db.rows[key := row], SetRecordStatus(db, key, status, now), db.lastRecordId))
  {
    var records := SetRecordStatus(db, key, status, now);
    forall k | k in db.rows && k != key
      ensures RowOk(db.rows[k], records)
    {
      assert RowOk(db.rows[k], db.records);
      if db.rows[k].preparedRecordId.Some? {
        assert db.rows[k].preparedRecordId != db.rows[key].preparedRecordId;
      }
    }
  }

  lemma InsertKeepsOk(db: Db, key: string, row: Row)
    requires DbOk(db) && RowOk(row, db.records) && row.preparedRecordId.None?
    ensures DbOk(db.(rows := db.rows[key := row]))
  {
  }

  lemma SaveKeepsOk(cfg: Config, db: Db, key: string, token: string, hash: string, d: Draft, now: int)
    requires DbOk(db) && d.psbt != "" && d.rawTx != "" && d.expectedTxid != ""
    ensures DbOk(SavePrepared(cfg, db, key, token, hash, d, now).0)
  {
    var db' := SavePrepared(cfg, db, key, token, hash, d, now).0;
    if db' != db {
      var id := db.lastRecordId + 1;
      assert id !in db.records;
      forall k | k in db'.rows
        ensures RowOk(db'.rows[k], db'.records)
      {
        assert RowOk(db.rows[k], db.records);
      }
      forall k, l | k in db'.rows && l in db'.rows && k != l && db'.rows[k].preparedRecordId.Some?
        ensures db'.rows[k].preparedRecordId != db'.rows[l].preparedRecordId
      {
        assert RowOk(db.rows[k], db.records) && RowOk(db.rows[l], db.records);
      }
    }
  }

  /** Every method keeps both tables consistent, whatever the clock says and whoever calls. */
  lemma ExecKeepsOk(cfg: Config, db: Db, op: Op, now: int)
    requires DbOk(db) && Sensible(op)
    ensures DbOk(Exec(cfg, db, op, now).0)
  {
    var db' := Exec(cfg, db, op, now).0;
    match op
    case SavePreparedOp(k, t, h, d) => SaveKeepsOk(cfg, db, k, t, h, d, now);
    case RecordOp(r) =>
      forall k | k in db.rows
        ensures RowOk(db.rows[k], db'.records)
      {
        assert RowOk(db.rows[k], db.records);
      }
    case MarkBroadcastOp(k, t, x) =>
      if db' != db {
        assert RowOk(db.rows[k], db.records);
        RestampKeepsOk(db, k, db'.rows[k], TxBroadcast, now);
      }
    case MarkPreparedFailedOp(k, t, c, e, m) =>
      if db' != db {
        assert RowOk(db.rows[k], db.records);
        RestampKeepsOk(db, k, db'.rows[k], TxRejected, now);
      }
    case ClaimOp(k, s, h, t) =>
      if k in db.rows { assert RowOk(db.rows[k], db.records); }
      if db' != db && db'.rows[k] == NewRow(cfg, s, h, t, now) {
        InsertKeepsOk(db, k, db'.rows[k]);
      } else if db' != db {
        UpdateKeepsOk(db, k, db'.rows[k]);
      }
    case PruneOp =>
    case LoadPreparedOp(_, _) =>
    case _ =>
      if db' != db {
        assert RowOk(db.rows[op.key], db.records);
        UpdateKeepsOk(db, op.key, db'.rows[op.key]);
      }
  }

  /** Pruning removes exactly the expired rows. */
  lemma PruneCounts(db: Db, now: int)
    ensures |set k | k in db.rows && db.rows[k].expiresAt <= now| == |db.rows| - |PruneExpired(db, now).0.rows|
  {
    var expired := set k | k in db.rows && db.rows[k].expiresAt <= now;
    var kept := PruneExpired(db, now).0.rows.Keys;
    assert expired + kept == db.rows.Keys && expired !! kept;
  }

  /** Persisted bytes are never rewritten or dropped, even when the row is deleted. */
  lemma RecordsImmutable(cfg: Config, db: Db, op: Op, now: int)
    requires DbOk(db)
    ensures var db' := Exec(cfg, db, op, now).0;
      forall id :: id in db.records ==> id in db'.records && SameTx(db.records[id], db'.records[id])
  {
    assert db.lastRecordId + 1 !in db.records;
  }

  /** On consistent tables no call ever reports corrupt prepared state. */
  lemma NeverCorrupt(cfg: Config, db: Db, op: Op, now: int)
    requires DbOk(db)
    ensures Exec(cfg, db, op, now).1 != Refused(PreparedCorrupt)
  {
    match op
    case SavePreparedOp(k, t, h, d) => if k in db.rows { assert RowOk(db.rows[k], db.records); }
    case LoadPreparedOp(k, h) => if k in db.rows { assert RowOk(db.rows[k], db.records); }
    case _ =>
  }

  // ------------------------------------------------------------ fencing

  /** Calls that act on behalf of a claim, and the token they carry. */
  predicate ActsFor(op: Op, key: string, token: string) {
    match op
    case StoreResponseOp(k, _, _, t, _, _) => k == key && t == token
    case SavePreparedOp(k, t, _, _) => k == key && t == token
    case MarkBroadcastOp(k, t, _) => k == key && t == token
    case MarkFailedOp(k, t, _, _, _) => k == key && t == token
    case MarkPreparedFailedOp(k, t, _, _, _) => k == key && t == token
    case MarkUnknownOp(k, t, _, _) => k == key && t == token
    case HeartbeatOp(k, t) => k == key && t == token
    case _ => false
  }

  predicate ReportsLost(reply: Reply) {
    reply == Refused(ClaimLost) || reply == Beat(false)
  }

  /** A row's token is one the store has issued. */
  ghost predicate TokensKnown(db: Db, issued: set<string>) {
    forall k :: k in db.rows && db.rows[k].claimToken.Some? ==> db.rows[k].claimToken.value in issued
  }

  function Issue(issued: set<string>, op: Op): set<string> {
    if op.ClaimOp? then issued + {op.drawn} else issued
  }

  lemma TokensStayKnown(cfg: Config, db: Db, issued: set<string>, op: Op, now: int)
    requires TokensKnown(db, issued)
    ensures TokensKnown(Exec(cfg, db, op, now).0, Issue(issued, op))
  {
  }

  /** Any interleaving of calls, at any clock readings; drawn tokens have never been issued before. */
  ghost predicate IsRun(cfg: Config, dbs: seq<Db>, issued: seq<set<string>>, ops: seq<Op>, clock: seq<int>) {
    && |dbs| == |ops| + 1 && |issued| == |ops| + 1 && |clock| == |ops|
    && TokensKnown(dbs[0], issued[0]) && DbOk(dbs[0])
    && forall i :: 0 <= i < |ops| ==>
         && Sensible(ops[i])
         && (ops[i].ClaimOp? ==> ops[i].drawn !in issued[i])
         && dbs[i + 1] == Exec(cfg, dbs[i], ops[i], clock[i]).0
         && issued[i + 1] == Issue(issued[i], ops[i])
  }

  lemma {:induction false} RunKeeps(
      cfg: Config, dbs: seq<Db>, issued: seq<set<string>>, ops: seq<Op>, clock: seq<int>, i: nat)
    requires IsRun(cfg, dbs, issued, ops, clock) && i < |dbs|
    ensures DbOk(dbs[i]) && TokensKnown(dbs[i], issued[i])
  {
    if i > 0 {
      RunKeeps(cfg, dbs, issued, ops, clock, i - 1);
      assert dbs[i - 1 + 1] == Exec(cfg, dbs[i - 1], ops[i - 1], clock[i - 1]).0;
      ExecKeepsOk(cfg, dbs[i - 1], ops[i - 1], clock[i - 1]);
      TokensStayKnown(cfg, dbs[i - 1], issued[i - 1], ops[i - 1], clock[i - 1]);
    }
  }

  /** A call under a token the row does not carry changes nothing and says so. */
  lemma LostClaimIsNoOp(cfg: Config, db: Db, op: Op, now: int, key: string, token: string)
    requires ActsFor(op, key, token) && !OwnedBy(db, key, token)
    ensures Exec(cfg, db, op, now).0 == db && ReportsLost(Exec(cfg, db, op, now).1)
  {
  }

  lemma UnownedStays(cfg: Config, db: Db, issued: set<string>, op: Op, now: int, key: string, token: string)
    requires token in issued && !OwnedBy(db, key, token) && (op.ClaimOp? ==> op.drawn !in issued)
    ensures token in Issue(issued, op) && !OwnedBy(Exec(cfg, db, op, now).0, key, token)
  {
  }

  /** A key that does not carry an issued token never carries it again. */
  lemma {:induction false} UnownedForever(
      cfg: Config, dbs: seq<Db>, issued: seq<set<string>>, ops: seq<Op>, clock: seq<int>,
      i: nat, j: nat, key: string, token: string)
    requires IsRun(cfg, dbs, issued, ops, clock) && i <= j < |dbs|
    requires token in issued[i] && !OwnedBy(dbs[i], key, token)
    ensures token in issued[j] && !OwnedBy(dbs[j], key, token)
    decreases j
  {
    if i < j {
      UnownedForever(cfg, dbs, issued, ops, clock, i, j - 1, key, token);
      UnownedStays(cfg, dbs[j - 1], issued[j - 1], ops[j - 1], clock[j - 1], key, token);
      assert dbs[j - 1 + 1] == Exec(cfg, dbs[j - 1], ops[j - 1], clock[j - 1]).0;
    }
  }

  lemma {:induction false} IssuedGrows(
      cfg: Config, dbs: seq<Db>, issued: seq<set<string>>, ops: seq<Op>, clock: seq<int>, i: nat, j: nat)
    requires IsRun(cfg, dbs, issued, ops, clock) && i <= j < |dbs|
    ensures issued[i] <= issued[j]
    decreases j
  {
    if i < j {
      IssuedGrows(cfg, dbs, issued, ops, clock, i, j - 1);
      assert issued[j - 1 + 1] == Issue(issued[j - 1], ops[j - 1]);
    }
  }

  /**
   Fencing over runs: once the row of a key has carried a token and carries it no more, because
   the token was replaced or the row settled or deleted, every later call under that token leaves
   both tables unchanged and reports the lost claim, through any deletion and re-creation of the
   row and whatever the clock does.
   */
  lemma FencedForever(
      cfg: Config, dbs: seq<Db>, issued: seq<set<string>>, ops: seq<Op>, clock: seq<int>,
      i: nat, m: nat, j: nat, key: string, token: string)
    requires IsRun(cfg, dbs, issued, ops, clock) && i <= m <= j < |ops|
    requires OwnedBy(dbs[i], key, token) && !OwnedBy(dbs[m], key, token) && ActsFor(ops[j], key, token)
    ensures dbs[j + 1] == dbs[j] && ReportsLost(Exec(cfg, dbs[j], ops[j], clock[j]).1)
  {
    RunKeeps(cfg, dbs, issued, ops, clock, i);
    IssuedGrows(cfg, dbs, issued, ops, clock, i, m);
    UnownedForever(cfg, dbs, issued, ops, clock, m, j, key, token);
    LostClaimIsNoOp(cfg, dbs[j], ops[j], clock[j], key, token);
  }

  // ------------------------------------------------------------ takeover

  /**
   When do the lease test in Python and the guard in SQL contradict each other?
   Exactly when the token column holds the empty text under a live lease (Python
   lets the caller pass, the UPDATE then refuses), or there is a token without a
   lease and the clock reads before zero.
   */
  lemma TakeOverChecksAgree(row: Row, now: int)
    ensures (LeaseHeld(row, now) <==> !TakeOverGuard(row, row.requestHash, now))
      <==> !(|| (row.claimToken == Some("") && row.leaseExpiresAt.Some? && row.leaseExpiresAt.value > now)
             || (Truthy(row.claimToken) && row.leaseExpiresAt.None? && now < 0))
  {
  }

  /**
   Progress: on consistent tables a matching claim of an unsettled, unexpired row is
   refused exactly while the lease runs; after that it installs the drawn token and
   keeps state, prepared record and transaction id.
   */
  lemma TakeOverProgress(cfg: Config, db: Db, key: string, drawn: string, now: int)
    requires DbOk(db) && key in db.rows && !Settled(db.rows[key].state) && db.rows[key].expiresAt > now
    ensures db.rows[key].leaseExpiresAt.Some?
    ensures var row := db.rows[key];
      var (db', reply) := ClaimIdempotent(cfg, db, key, row.scope, row.requestHash, drawn, now);
      if row.leaseExpiresAt.value > now then db' == db && reply == Refused(InProgress)
      else
        && reply == Claim(drawn, row.state, row.preparedRecordId)
        && key in db'.rows && OwnedBy(db', key, drawn)
        && db'.rows[key].state == row.state && db'.rows[key].preparedRecordId == row.preparedRecordId
        && db'.rows[key].paymentHash == row.paymentHash && db'.records == db.records
        && (forall k :: k != key ==> (k in db'.rows <==> k in db.rows) && (k in db.rows ==> db'.rows[k] == db.rows[k]))
  {
    assert RowOk(db.rows[key], db.records);
  }

  // ------------------------------------------------------------ replay

  /** At every instant `get_replay` and `claim_idempotent` give the same answer, or both let the caller work. */
  lemma ReplayAgreesWithClaim(cfg: Config, db: Db, key: string, scope: string, hash: string, drawn: string, now: int)
    ensures var claim := ClaimIdempotent(cfg, db, key, scope, hash, drawn, now).1;
      match GetReplay(db, key, scope, hash, now)
      case Some(answer) => claim == answer && (answer.Replay? || answer == Refused(KeyReused))
      case None => claim.Claim? || claim == Refused(InProgress)
  {
  }

  /** A prune or a claim that finds the key's row expired: its life ends here. */
  predicate EndsRow(db: Db, op: Op, now: int, key: string) {
    (op.PruneOp? || (op.ClaimOp? && op.key == key)) && key in db.rows && db.rows[key].expiresAt <= now
  }

  /** Between two points of a run the key's row is neither pruned nor claimed anew. */
  ghost predicate Survives(dbs: seq<Db>, ops: seq<Op>, clock: seq<int>, i: nat, j: nat, key: string)
    requires |dbs| == |ops| + 1 && |clock| == |ops| && i <= j < |dbs|
  {
    forall m :: i <= m < j ==> !EndsRow(dbs[m], ops[m], clock[m], key)
  }

  lemma SettledStep(cfg: Config, db: Db, op: Op, now: int, key: string)
    requires DbOk(db) && key in db.rows && Settled(db.rows[key].state) && !EndsRow(db, op, now, key)
    ensures var db' := Exec(cfg, db, op, now).0; key in db'.rows && db'.rows[key] == db.rows[key]
  {
    assert RowOk(db.rows[key], db.records);
  }

  /**
   Replay stability: a settled row that has not met a reading past its expiry is still
   there, unchanged; every matching claim replays the same status and body, and every
   other request on the key is refused.
   */
  lemma {:induction false} ReplayIsStable(
      cfg: Config, dbs: seq<Db>, issued: seq<set<string>>, ops: seq<Op>, clock: seq<int>, i: nat, j: nat, key: string)
    requires IsRun(cfg, dbs, issued, ops, clock) && i <= j < |dbs|
    requires key in dbs[i].rows && Settled(dbs[i].rows[key].state)
    requires Survives(dbs, ops, clock, i, j, key)
    ensures key in dbs[j].rows && dbs[j].rows[key] == dbs[i].rows[key]
    ensures forall scope, hash, drawn, now | now < dbs[i].rows[key].expiresAt ::
      var row := dbs[i].rows[key];
      ClaimIdempotent(cfg, dbs[j], key, scope, hash, drawn, now).1 ==
        if scope == row.scope && hash == row.requestHash then Replay(row.statusCode, row.response)
        else Refused(KeyReused)
    decreases j - i
  {
    if i < j {
      hide Exec, DbOk;
      RunKeeps(cfg, dbs, issued, ops, clock, i);
      assert dbs[i + 1] == Exec(cfg, dbs[i], ops[i], clock[i]).0;
      SettledStep(cfg, dbs[i], ops[i], clock[i], key);
      ReplayIsStable(cfg, dbs, issued, ops, clock, i + 1, j, key);
    }
  }

  // ------------------------------------------------------------ is a broadcast final?

  /** The row says that its transaction was broadcast, or succeeded. */
  predicate Sealed(db: Db, key: string) {
    key in db.rows && db.rows[key].state in {State.Broadcast, State.Succeeded}
  }

  /** An accepted `mark_unknown` on the key. */
  predicate Doubts(cfg: Config, db: Db, op: Op, now: int, key: string) {
    op.MarkUnknownOp? && op.key == key && Exec(cfg, db, op, now).1 == Stored
  }

  /** In one step the seal is broken by an accepted `mark_unknown`, and by nothing else while the row lives. */
  lemma SealStep(cfg: Config, db: Db, op: Op, now: int, key: string)
    requires DbOk(db) && Sensible(op) && Sealed(db, key) && !EndsRow(db, op, now, key)
    ensures var db' := Exec(cfg, db, op, now).0;
      && key in db'.rows && (Sealed(db', key) <==> !Doubts(cfg, db, op, now, key))
      && (Doubts(cfg, db, op, now, key) ==> db.rows[key].state == State.Broadcast && db'.rows[key].state == Unknown)
  {
    hide DbOk, Exec;
    if op.MarkUnknownOp? {
      DoubtBreaksTheSeal(cfg, db, op, now, key);
    } else {
      SealHolds(cfg, db, op, now, key);
    }
  }

  lemma DoubtBreaksTheSeal(cfg: Config, db: Db, op: Op, now: int, key: string)
    requires DbOk(db) && op.MarkUnknownOp? && Sealed(db, key)
    ensures var db' := Exec(cfg, db, op, now).0;
      && key in db'.rows && (Sealed(db', key) <==> !Doubts(cfg, db, op, now, key))
      && (Doubts(cfg, db, op, now, key) ==> db.rows[key].state == State.Broadcast && db'.rows[key].state == Unknown)
  {
  }

  lemma SealHolds(cfg: Config, db: Db, op: Op, now: int, key: string)
    requires DbOk(db) && !op.MarkUnknownOp? && Sealed(db, key) && !EndsRow(db, op, now, key)
    ensures Sealed(Exec(cfg, db, op, now).0, key)
  {
    assert RowOk(db.rows[key], db.records);
  }

  /**
   When a broadcast is final: while the row of a key survives, it says BROADCAST or SUCCEEDED all
   the way from `i` to `j` if and only if no `mark_unknown` on the key is accepted in between. So a
   row gets from BROADCAST to FAILED_FINAL only through an accepted `mark_unknown`.
   */
  lemma {:induction false} BroadcastFinalUnlessDoubted(
      cfg: Config, dbs: seq<Db>, issued: seq<set<string>>, ops: seq<Op>, clock: seq<int>, i: nat, j: nat, key: string)
    requires IsRun(cfg, dbs, issued, ops, clock) && i <= j < |dbs|
    requires Sealed(dbs[i], key) && Survives(dbs, ops, clock, i, j, key)
    ensures (forall n :: i <= n <= j ==> Sealed(dbs[n], key))
      <==> (forall m :: i <= m < j ==> !Doubts(cfg, dbs[m], ops[m], clock[m], key))
    decreases j
  {
    hide DbOk, Sealed, Doubts, EndsRow, Exec;
    if i < j {
      assert Survives(dbs, ops, clock, i, j - 1, key);
      BroadcastFinalUnlessDoubted(cfg, dbs, issued, ops, clock, i, j - 1, key);
      RunKeeps(cfg, dbs, issued, ops, clock, j - 1);
      assert dbs[j - 1 + 1] == Exec(cfg, dbs[j - 1], ops[j - 1], clock[j - 1]).0;
      if Sealed(dbs[j - 1], key) {
        SealStep(cfg, dbs[j - 1], ops[j - 1], clock[j - 1], key);
      }
    }
  }

  /** The other half: from UNKNOWN the owner's next `mark_prepared_failed` is accepted, whatever it says. */
  lemma DoubtedCanFail(
      cfg: Config, dbs: seq<Db>, issued: seq<set<string>>, ops: seq<Op>, clock: seq<int>, key: string,
      statusCode: int, code: string, message: string, now: int)
    requires IsRun(cfg, dbs, issued, ops, clock)
    requires key in dbs[|ops|].rows && dbs[|ops|].rows[key].state == Unknown
    ensures dbs[|ops|].rows[key].claimToken.Some?
    ensures var op := MarkPreparedFailedOp(key, dbs[|ops|].rows[key].claimToken.value, statusCode, code, message);
      var db' := Exec(cfg, dbs[|ops|], op, now).0;
      && IsRun(cfg, dbs + [db'], issued + [issued[|ops|]], ops + [op], clock + [now])
      && key in db'.rows && db'.rows[key].state == FailedFinal
  {
    hide DbOk, RowOk;
    RunKeeps(cfg, dbs, issued, ops, clock, |ops|);
    assert dbs[|ops|].rows[key].claimToken.Some? by { OwnedWhileOpen(dbs[|ops|], key); }
  }

  lemma OwnedWhileOpen(db: Db, key: string)
    requires DbOk(db) && key in db.rows && !Settled(db.rows[key].state)
    ensures Truthy(db.rows[key].claimToken)
  {
    assert RowOk(db.rows[key], db.records);
  }

  // ------------------------------------------------------------ refinement

  datatype Request = Request(scope: string, hash: string)
  datatype Artefact = Artefact(recordId: nat, psbt: string, rawTx: string, txid: string)
  datatype Outcome = Outcome(statusCode: int, body: Json)

  function CellOf(row: Row, records: map<nat, TxRecord>): FR.Cell<Request, Artefact, Outcome> {
    var request := Request(row.scope, row.requestHash);
    if Settled(row.state) then FR.Done(request, Outcome(row.statusCode, row.response))
    else
      FR.Owned(request, if row.claimToken.Some? then row.claimToken.value else "",
               if row.preparedRecordId.Some? && row.preparedRecordId.value in records
               then
                 var r := records[row.preparedRecordId.value];
                 Some(Artefact(row.preparedRecordId.value, r.psbt, r.rawTx, r.txid))
               else None)
  }

  function Abstract(db: Db, issued: set<string>): FR.Register<Request, Artefact, Outcome> {
    FR.Register(map k | k in db.rows :: CellOf(db.rows[k], db.records), issued)
  }

  /** The abstract act a concrete call performs. */
  function ActOf(cfg: Config, db: Db, op: Op, now: int): FR.Act<Request, Artefact, Outcome> {
    var (db', reply) := Exec(cfg, db, op, now);
    match op
    case ClaimOp(k, s, h, t) =>
      if !reply.Claim? then FR.Idle
      else if k in db.rows && db.rows[k].expiresAt > now then FR.TakeOver(k, t)
      else if k in db.rows then FR.Renew(k, Request(s, h), t)
      else FR.Begin(k, Request(s, h), t)
    case StoreResponseOp(k, _, _, t, c, b) => if reply.Stored? then FR.Settle(k, t, Outcome(c, b)) else FR.Idle
    case SavePreparedOp(k, t, _, d) =>
      if db' == db then FR.Idle
      else FR.Commit(k, t, Artefact(db.lastRecordId + 1, d.psbt, d.rawTx, d.expectedTxid))
    case MarkFailedOp(k, t, c, e, m) =>
      if reply.Stored? then FR.Settle(k, t, Outcome(c, db'.rows[k].response)) else FR.Idle
    case MarkPreparedFailedOp(k, t, c, e, m) =>
      if reply.Stored? then FR.Settle(k, t, Outcome(c, db'.rows[k].response)) else FR.Idle
    case PruneOp => FR.Expire(set k | k in db.rows && db.rows[k].expiresAt <= now)
    case _ => FR.Idle
  }

  /** Restamping or adding a record changes no other key's cell. */
  lemma OtherCellsKeep(db: Db, db': Db, key: string, k: string)
    requires DbOk(db) && k != key
    requires (k in db'.rows <==> k in db.rows) && (k in db.rows ==> db'.rows[k] == db.rows[k])
    requires forall id :: id in db.records ==> id in db'.records && SameTx(db.records[id], db'.records[id])
    ensures FR.At(Abstract(db', {}), k) == FR.At(Abstract(db, {}), k)
  {
    if k in db.rows {
      assert RowOk(db.rows[k], db.records);
    }
  }

  /** The key a call is about; recording and pruning are about none in particular. */
  function KeyOf(op: Op): string
    requires !op.RecordOp? && !op.PruneOp?
  {
    op.key
  }

  /** A call about one key leaves the cells of all others alone. */
  lemma RefinesElsewhere(cfg: Config, db: Db, issued: set<string>, issued': set<string>, op: Op, now: int)
    requires DbOk(db) && !op.RecordOp? && !op.PruneOp?
    ensures FR.OnlyAt(Abstract(db, issued), Abstract(Exec(cfg, db, op, now).0, issued'), {KeyOf(op)})
  {
    var db' := Exec(cfg, db, op, now).0;
    RecordsImmutable(cfg, db, op, now);
    forall k | k !in {KeyOf(op)}
      ensures FR.At(Abstract(db', issued'), k) == FR.At(Abstract(db, issued), k)
    {
      OtherCellsKeep(db, db', KeyOf(op), k);
    }
  }

  /** The cell of a key, read off the tables. */
  lemma CellAt(db: Db, issued: set<string>, key: string)
    ensures FR.At(Abstract(db, issued), key)
      == if key in db.rows then CellOf(db.rows[key], db.records) else FR.Absent
  {
  }

  lemma SaveRefines(cfg: Config, db: Db, issued: set<string>, op: Op, now: int)
    requires DbOk(db) && op.SavePreparedOp?
    ensures FR.Next(Abstract(db, issued), Abstract(Exec(cfg, db, op, now).0, issued), ActOf(cfg, db, op, now))
  {
    var db' := Exec(cfg, db, op, now).0;
    RefinesElsewhere(cfg, db, issued, issued, op, now);
    CellAt(db, issued, op.key);
    CellAt(db', issued, op.key);
  }

  lemma ClaimRefines(cfg: Config, db: Db, issued: set<string>, op: Op, now: int)
    requires DbOk(db) && op.ClaimOp? && op.drawn !in issued
    ensures FR.Next(Abstract(db, issued), Abstract(Exec(cfg, db, op, now).0, Issue(issued, op)),
                    ActOf(cfg, db, op, now))
  {
    var db' := Exec(cfg, db, op, now).0;
    var issued' := Issue(issued, op);
    RefinesElsewhere(cfg, db, issued, issued', op, now);
    CellAt(db, issued, op.key);
    CellAt(db', issued', op.key);
  }

  /** Calls that only move the row of the token's owner, and perhaps restamp its record. */
  lemma OwnerCallRefines(cfg: Config, db: Db, issued: set<string>, op: Op, now: int)
    requires DbOk(db) && !op.ClaimOp? && !op.SavePreparedOp? && !op.RecordOp? && !op.PruneOp?
    ensures FR.Next(Abstract(db, issued), Abstract(Exec(cfg, db, op, now).0, issued), ActOf(cfg, db, op, now))
  {
    var db' := Exec(cfg, db, op, now).0;
    RefinesElsewhere(cfg, db, issued, issued, op, now);
    CellAt(db, issued, op.key);
    CellAt(db', issued, op.key);
    if op.key in db.rows {
      assert RowOk(db.rows[op.key], db.records);
      RecordsImmutable(cfg, db, op, now);
    }
  }

  lemma RecordRefines(cfg: Config, db: Db, issued: set<string>, op: Op, now: int)
    requires DbOk(db) && op.RecordOp?
    ensures FR.Next(Abstract(db, issued), Abstract(Exec(cfg, db, op, now).0, issued), FR.Idle)
  {
    var db' := Exec(cfg, db, op, now).0;
    forall k
      ensures FR.At(Abstract(db', issued), k) == FR.At(Abstract(db, issued), k)
    {
      if k in db.rows { assert RowOk(db.rows[k], db.records); }
    }
  }

  lemma PruneRefines(cfg: Config, db: Db, issued: set<string>, op: Op, now: int)
    requires op.PruneOp?
    ensures FR.Next(Abstract(db, issued), Abstract(Exec(cfg, db, op, now).0, issued), ActOf(cfg, db, op, now))
  {
  }

  /** Refinement: every call of every method is one act of the fenced register; lives end by expiry alone. */
  lemma StoreRefinesRegister(cfg: Config, db: Db, issued: set<string>, op: Op, now: int)
    requires DbOk(db) && Sensible(op) && (op.ClaimOp? ==> op.drawn !in issued)
    ensures FR.Next(Abstract(db, issued), Abstract(Exec(cfg, db, op, now).0, Issue(issued, op)),
                    ActOf(cfg, db, op, now))
    ensures forall k :: FR.EndsLife(ActOf(cfg, db, op, now), k) <==> EndsRow(db, op, now, k)
  {
    match op
    case ClaimOp(_, _, _, _) => ClaimRefines(cfg, db, issued, op, now);
    case SavePreparedOp(_, _, _, _) => SaveRefines(cfg, db, issued, op, now);
    case RecordOp(_) => RecordRefines(cfg, db, issued, op, now);
    case PruneOp => PruneRefines(cfg, db, issued, op, now);
    case _ => OwnerCallRefines(cfg, db, issued, op, now);
  }

  function AbstractRun(dbs: seq<Db>, issued: seq<set<string>>): seq<FR.Register<Request, Artefact, Outcome>>
    requires |dbs| == |issued|
  {
    seq(|dbs|, i requires 0 <= i < |dbs| => Abstract(dbs[i], issued[i]))
  }

  function Acts(cfg: Config, dbs: seq<Db>, ops: seq<Op>, clock: seq<int>): seq<FR.Act<Request, Artefact, Outcome>>
    requires |dbs| == |ops| + 1 && |clock| == |ops|
  {
    seq(|ops|, i requires 0 <= i < |ops| => ActOf(cfg, dbs[i], ops[i], clock[i]))
  }

  /** Every run of the store is a run of the fenced register, whose lives end where rows expire. */
  lemma RunRefinesRegister(cfg: Config, dbs: seq<Db>, issued: seq<set<string>>, ops: seq<Op>, clock: seq<int>)
    requires IsRun(cfg, dbs, issued, ops, clock)
    ensures FR.IsRun(AbstractRun(dbs, issued), Acts(cfg, dbs, ops, clock))
    ensures forall i, k :: 0 <= i < |ops| ==>
      (FR.EndsLife(Acts(cfg, dbs, ops, clock)[i], k) <==> EndsRow(dbs[i], ops[i], clock[i], k))
  {
    var run, acts := AbstractRun(dbs, issued), Acts(cfg, dbs, ops, clock);
    forall i | 0 <= i < |acts|
      ensures FR.Next(run[i], run[i + 1], acts[i])
      ensures forall k :: FR.EndsLife(acts[i], k) <==> EndsRow(dbs[i], ops[i], clock[i], k)
    {
      RunKeeps(cfg, dbs, issued, ops, clock, i);
      assert dbs[i + 1] == Exec(cfg, dbs[i], ops[i], clock[i]).0;
      StoreRefinesRegister(cfg, dbs[i], issued[i], ops[i], clock[i]);
    }
  }

  /** A call that persists a transaction for the key (and does not just hand back an earlier one). */
  predicate Persists(db: Db, op: Op, db': Db, key: string) {
    op.SavePreparedOp? && op.key == key && db' != db
  }

  /**
   Inherited from the register: between two calls that persist a transaction for the
   same key, its row has expired and was pruned or claimed anew.
   */
  lemma OneTransactionPerLife(
      cfg: Config, dbs: seq<Db>, issued: seq<set<string>>, ops: seq<Op>, clock: seq<int>, i: nat, j: nat, key: string)
    requires IsRun(cfg, dbs, issued, ops, clock) && i < j < |ops|
    requires Persists(dbs[i], ops[i], dbs[i + 1], key) && Persists(dbs[j], ops[j], dbs[j + 1], key)
    ensures exists m :: i < m < j && EndsRow(dbs[m], ops[m], clock[m], key)
  {
    var acts := Acts(cfg, dbs, ops, clock);
    RunRefinesRegister(cfg, dbs, issued, ops, clock);
    assert dbs[i + 1] == Exec(cfg, dbs[i], ops[i], clock[i]).0;
    assert dbs[j + 1] == Exec(cfg, dbs[j], ops[j], clock[j]).0;
    assert acts[i].Commit? && acts[i].key == key && acts[j].Commit? && acts[j].key == key;
    FR.CommitOncePerLife(AbstractRun(dbs, issued), acts, i, j);
    var m :| i < m < j && FR.EndsLife(acts[m], key);
    assert EndsRow(dbs[m], ops[m], clock[m], key);
  }
}
