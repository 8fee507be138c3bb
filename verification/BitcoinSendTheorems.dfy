/** What the Bitcoin adapter guarantees about every run: any workers, crashes, stalls, takeovers and prunings. */
module BitcoinSendTheorems {
  import opened Prelude
  import opened Json
  import opened BitcoinStore
  import opened BitcoinStoreProofs
  import opened BitcoinSend
  import opened BitcoinSendInvariant
  import opened BitcoinSendSteps

  /** The event that committed the bytes this submission sends, in the same life. */
  predicate CommitsFor(commit: Event, sent: Event) {
    commit.Persisted? && commit.life == sent.life && commit.rawTx == sent.rawTx
  }

  /**
   All submissions made in one life of an idempotency row carry the same raw bytes,
   and those bytes were committed to the transaction records before the first of them.
   */
  lemma SameBytesPerLife(cfg: Config, run: seq<World>, moves: seq<Move>, n: nat, i: nat, j: nat)
    requires BitcoinSend.IsRun(cfg, run, moves) && n < |run|
    requires i < |run[n].history| && j < |run[n].history|
    requires run[n].history[i].Sent? && run[n].history[j].Sent? && run[n].history[i].life == run[n].history[j].life
    ensures run[n].history[i].rawTx == run[n].history[j].rawTx
    ensures exists c :: 0 <= c < i && c < j && CommitsFor(run[n].history[c], run[n].history[i])
  {
    ReachableInv(cfg, run, moves, n);
    var s := run[n];
    var first := if i <= j then i else j;
    var a, b := s.history[i], s.history[j];
    assert EventOk(s, i) && EventOk(s, j) && EventOk(s, first);
    var ca := CommitOf(s, i);
    var cb := CommitOf(s, j);
    assert EventOk(s, ca) && EventOk(s, cb);
    assert a.recordId == b.recordId;
    var c := CommitOf(s, first);
  }

  lemma CommitOf(s: World, i: nat) returns (c: nat)
    requires i < |s.history| && s.history[i].Sent? && EventOk(s, i)
    ensures c < i && s.history[c] == Persisted(s.history[i].recordId, s.history[i].life, s.history[i].rawTx)
  {
    var e := Persisted(s.history[i].recordId, s.history[i].life, s.history[i].rawTx);
    assert e in s.history[..i];
    c :| 0 <= c < i && s.history[..i][c] == e;
  }

  /** The bytes a worker is about to submit are the committed ones, and the record still exists. */
  lemma SubmitsCommittedBytes(cfg: Config, run: seq<World>, moves: seq<Move>, n: nat, id: nat)
    requires BitcoinSend.IsRun(cfg, run, moves) && n < |run|
    requires id in run[n].workers && run[n].workers[id].pc.Sending?
    ensures var s, p := run[n], run[n].workers[id].pc.prepared;
      && p.recordId in s.db.records && s.db.records[p.recordId].rawTx == p.rawTx
      && s.db.records[p.recordId].txid == p.expectedTxid
      && p.recordId in s.origin
      && s.origin[p.recordId] == Life(s.workers[id].call.key, s.workers[id].life)
  {
    ReachableInv(cfg, run, moves, n);
    assert WorkerOk(run[n], run[n].workers[id]);
  }

  /**
   A settled success of the send route is linked to a record with status broadcast, and
   the txid of the stored response, of the row and of the record are one and the same.
   */
  lemma SuccessMeansBroadcast(cfg: Config, run: seq<World>, moves: seq<Move>, n: nat, key: string)
    requires BitcoinSend.IsRun(cfg, run, moves) && n < |run| && key in run[n].db.rows
    requires run[n].db.rows[key].state == Succeeded && SendRoute(run[n].db.rows[key].scope)
    ensures var row, records := run[n].db.rows[key], run[n].db.records;
      && row.preparedRecordId.Some? && row.preparedRecordId.value in records
      && records[row.preparedRecordId.value].status == TxBroadcast
      && row.paymentHash == Some(records[row.preparedRecordId.value].txid)
      && TxidIn(row.response) == Str(records[row.preparedRecordId.value].txid)
  {
    ReachableInv(cfg, run, moves, n);
    assert SuccessOk(run[n].db.rows[key], run[n].db.records);
  }

  /** Row states and records agree in every reachable world, and no record serves two rows. */
  lemma RowsAndRecordsAgree(cfg: Config, run: seq<World>, moves: seq<Move>, n: nat, key: string)
    requires BitcoinSend.IsRun(cfg, run, moves) && n < |run| && key in run[n].db.rows
    ensures var row, records := run[n].db.rows[key], run[n].db.records;
      && (row.state == State.Claimed ==> row.preparedRecordId.None?)
      && (row.state in {State.Prepared, State.Broadcast, State.Unknown} ==>
            && row.preparedRecordId.Some? && row.preparedRecordId.value in records
            && records[row.preparedRecordId.value].kind == BroadcastKind
            && records[row.preparedRecordId.value].requestHash == row.requestHash
            && row.paymentHash == Some(records[row.preparedRecordId.value].txid))
      && (forall other :: other in run[n].db.rows && other != key && row.preparedRecordId.Some?
            ==> run[n].db.rows[other].preparedRecordId != row.preparedRecordId)
  {
    ReachableInv(cfg, run, moves, n);
    assert RowOk(run[n].db.rows[key], run[n].db.records);
  }

  /** Persisted bytes, PSBT and txid of a record are the same in every later world. */
  lemma {:induction false} RecordsNeverChange(cfg: Config, run: seq<World>, moves: seq<Move>, i: nat, j: nat, id: nat)
    requires BitcoinSend.IsRun(cfg, run, moves) && i <= j < |run| && id in run[i].db.records
    ensures id in run[j].db.records && SameTx(run[i].db.records[id], run[j].db.records[id])
    decreases j
  {
    if i < j {
      RecordsNeverChange(cfg, run, moves, i, j - 1, id);
      ReachableInv(cfg, run, moves, j - 1);
      StepKeepsRecords(cfg, run[j - 1], moves[j - 1], id);
      assert run[j - 1 + 1] == Step(cfg, run[j - 1], moves[j - 1]);
    }
  }

  lemma StepKeepsRecords(cfg: Config, s: World, move: Move, id: nat)
    requires Inv(s) && Enabled(s, move) && id in s.db.records
    ensures id in Step(cfg, s, move).db.records && SameTx(s.db.records[id], Step(cfg, s, move).db.records[id])
  {
    match move
    case Act(w, now, drawn, _) =>
      if OpAt(s.workers[w], drawn).Some? { RecordsImmutable(cfg, s.db, OpAt(s.workers[w], drawn).value, now); }
    case Prune(now) => RecordsImmutable(cfg, s.db, PruneOp, now);
    case Record(r) => RecordsImmutable(cfg, s.db, RecordOp(r), 0);
    case _ =>
  }

  /** The store never reports corrupt prepared state to any worker. */
  lemma CorruptIsUnreachable(cfg: Config, run: seq<World>, moves: seq<Move>, n: nat, id: nat, drawn: string, now: int)
    requires BitcoinSend.IsRun(cfg, run, moves) && n < |run| && id in run[n].workers
    requires OpAt(run[n].workers[id], drawn).Some?
    ensures Exec(cfg, run[n].db, OpAt(run[n].workers[id], drawn).value, now).1 != Refused(PreparedCorrupt)
  {
    ReachableInv(cfg, run, moves, n);
    NeverCorrupt(cfg, run[n].db, OpAt(run[n].workers[id], drawn).value, now);
  }

  /** The branch of `save_prepared_broadcast` that hands back an earlier record is dead in service-driven runs. */
  lemma AlreadyAttachedIsUnreachable(cfg: Config, run: seq<World>, moves: seq<Move>, n: nat, id: nat)
    requires BitcoinSend.IsRun(cfg, run, moves) && n < |run|
    requires id in run[n].workers && run[n].workers[id].pc.Saving?
    ensures var s, w := run[n], run[n].workers[id];
      w.token.Some? && (OwnedBy(s.db, w.call.key, w.token.value) ==> s.db.rows[w.call.key].preparedRecordId.None?)
  {
    ReachableInv(cfg, run, moves, n);
    assert WorkerOk(run[n], run[n].workers[id]);
    if OwnedBy(run[n].db, run[n].workers[id].call.key, run[n].workers[id].token.value) {
      SaveFindsNothing(run[n], id);
    }
  }

  /** Takeover in a reachable world: see `TakeOverProgress`; here the row is any the protocol can produce. */
  lemma StalledRequestsCanResume(
      cfg: Config, run: seq<World>, moves: seq<Move>, n: nat, key: string, drawn: string, now: int)
    requires BitcoinSend.IsRun(cfg, run, moves) && n < |run| && key in run[n].db.rows
    requires !Settled(run[n].db.rows[key].state) && run[n].db.rows[key].expiresAt > now
    ensures run[n].db.rows[key].leaseExpiresAt.Some?
    ensures var row := run[n].db.rows[key];
      var (db', reply) := ClaimIdempotent(cfg, run[n].db, key, row.scope, row.requestHash, drawn, now);
      if row.leaseExpiresAt.value > now then reply == Refused(InProgress) && db' == run[n].db
      else
        && reply == Claim(drawn, row.state, row.preparedRecordId)
        && key in db'.rows && db'.rows[key].state == row.state && db'.rows[key].claimToken == Some(drawn)
        && db'.rows[key].preparedRecordId == row.preparedRecordId && db'.rows[key].paymentHash == row.paymentHash
  {
    ReachableInv(cfg, run, moves, n);
    TakeOverProgress(cfg, run[n].db, key, drawn, now);
  }

  // ------------------------------------------------------------ links to the store's own theorems

  /** Every step of the system is one store call with a fresh identifier, or does not touch the tables. */
  lemma StepIsAStoreCall(cfg: Config, s: World, move: Move)
    requires Inv(s) && Enabled(s, move)
    ensures CallsOrStutters(cfg, s, Step(cfg, s, move))
  {
    match move
    case Act(id, now, drawn, _) =>
      if OpAt(s.workers[id], drawn).Some? {
        CallIsSensible(s, id, OpAt(s.workers[id], drawn).value);
        assert IsTheCall(cfg, s, Step(cfg, s, move), OpAt(s.workers[id], drawn).value, now);
      }
    case Prune(now) => assert IsTheCall(cfg, s, Step(cfg, s, move), PruneOp, now);
    case Record(r) => assert IsTheCall(cfg, s, Step(cfg, s, move), RecordOp(r), 0);
    case _ =>
  }

  ghost predicate CallsOrStutters(cfg: Config, s: World, s': World) {
    (s'.db == s.db && s'.issued == s.issued) || exists op, now :: IsTheCall(cfg, s, s', op, now)
  }

  ghost predicate IsTheCall(cfg: Config, s: World, s': World, op: Op, now: int) {
    && Sensible(op) && (op.ClaimOp? ==> op.drawn !in s.issued)
    && s'.db == Exec(cfg, s.db, op, now).0 && s'.issued == Issue(s.issued, op)
  }

  /** The worker's next call, if it is made for its claim, changes nothing and reports the loss. */
  ghost predicate CallIsLost(cfg: Config, s: World, id: nat, now: int)
    requires id in s.workers
  {
    var call := OpAt(s.workers[id], "");
    call.Some? && !call.value.LoadPreparedOp? ==>
      Exec(cfg, s.db, call.value, now).0 == s.db && ReportsLost(Exec(cfg, s.db, call.value, now).1)
  }

  /**
   Fencing of a worker: once its row has carried its token and carries it no more, every later
   call it makes on behalf of the claim leaves the tables as they are and is told the claim is lost.
   */
  lemma FencedWorker(
      cfg: Config, run: seq<World>, moves: seq<Move>, i: nat, m: nat, j: nat, id: nat, token: string, now: int)
    requires BitcoinSend.IsRun(cfg, run, moves) && i <= m <= j < |run|
    requires id in run[j].workers && run[j].workers[id].token == Some(token)
    requires OwnedBy(run[i].db, run[j].workers[id].call.key, token)
    requires !OwnedBy(run[m].db, run[j].workers[id].call.key, token)
    ensures CallIsLost(cfg, run[j], id, now)
  {
    var w := run[j].workers[id];
    OwnedIsIssued(cfg, run, moves, i, m, w.call.key, token);
    UnownedInRun(cfg, run, moves, m, j, w.call.key, token);
    ReachableInv(cfg, run, moves, j);
    UnownedWorkerLoses(cfg, run[j], id, now);
  }

  lemma UnownedWorkerLoses(cfg: Config, s: World, id: nat, now: int)
    requires id in s.workers && LocalOk(s.workers[id]) && s.workers[id].token.Some?
    requires !OwnedBy(s.db, s.workers[id].call.key, s.workers[id].token.value)
    ensures CallIsLost(cfg, s, id, now)
  {
    var w := s.workers[id];
    if OpAt(w, "").Some? && !w.pc.Loading? {
      LostClaimIsNoOp(cfg, s.db, OpAt(w, "").value, now, w.call.key, w.token.value);
    }
  }

  lemma RunStepIsAStoreCall(cfg: Config, run: seq<World>, moves: seq<Move>, i: nat)
    requires BitcoinSend.IsRun(cfg, run, moves) && i < |moves|
    ensures CallsOrStutters(cfg, run[i], run[i + 1])
  {
    ReachableInv(cfg, run, moves, i);
    StepIsAStoreCall(cfg, run[i], moves[i]);
  }

  lemma UnownedOneStep(cfg: Config, s: World, s': World, key: string, token: string)
    requires CallsOrStutters(cfg, s, s') && token in s.issued && !OwnedBy(s.db, key, token)
    ensures token in s'.issued && !OwnedBy(s'.db, key, token)
  {
    if s'.db != s.db || s'.issued != s.issued {
      var op, now :| IsTheCall(cfg, s, s', op, now);
      UnownedStays(cfg, s.db, s.issued, op, now, key, token);
    }
  }

  lemma {:induction false} UnownedInRun(
      cfg: Config, run: seq<World>, moves: seq<Move>, i: nat, j: nat, key: string, token: string)
    requires BitcoinSend.IsRun(cfg, run, moves) && i <= j < |run|
    requires token in run[i].issued && !OwnedBy(run[i].db, key, token)
    ensures token in run[j].issued && !OwnedBy(run[j].db, key, token)
    decreases j
  {
    hide Inv, Step, Enabled;
    if i < j {
      UnownedInRun(cfg, run, moves, i, j - 1, key, token);
      RunStepIsAStoreCall(cfg, run, moves, j - 1);
      UnownedOneStep(cfg, run[j - 1], run[j - 1 + 1], key, token);
    }
  }

  lemma IssuedOneStep(cfg: Config, s: World, s': World)
    requires CallsOrStutters(cfg, s, s')
    ensures s.issued <= s'.issued
  {
  }

  lemma {:induction false} OwnedIsIssued(
      cfg: Config, run: seq<World>, moves: seq<Move>, i: nat, j: nat, key: string, token: string)
    requires BitcoinSend.IsRun(cfg, run, moves) && i <= j < |run| && OwnedBy(run[i].db, key, token)
    ensures token in run[j].issued
    decreases j
  {
    hide Inv, Step, Enabled;
    if i < j {
      OwnedIsIssued(cfg, run, moves, i, j - 1, key, token);
      RunStepIsAStoreCall(cfg, run, moves, j - 1);
      IssuedOneStep(cfg, run[j - 1], run[j - 1 + 1]);
    } else {
      ReachableInv(cfg, run, moves, i);
      TablesOk(run[i]);
    }
  }
}
