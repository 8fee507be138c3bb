/**
 What the rows, records and submissions of the Bitcoin adapter rest on: the answers of the
 node and the wallet in the moves of the run.
 */
module BitcoinSendOutcomes {
  import opened Prelude
  import opened Json
  import opened BitcoinStore
  import opened BitcoinSend
  import opened BitcoinSendInvariant
  import opened BitcoinSendSteps
  import opened BitcoinSendTheorems
  import opened BitcoinSendLives
  import opened BitcoinSendBeats
  import opened BitcoinSendReasons

  // ------------------------------------------------------------ rows

  /** The transaction is the one the key's row is linked to. */
  ghost predicate RecordOf(s: World, key: string, p: PreparedBroadcast) {
    && key in s.db.rows && s.db.rows[key].preparedRecordId == Some(p.recordId)
    && p.recordId in s.db.records && Matches(s.db.records[p.recordId], p)
  }

  /** What a state of a key's row rests on. */
  ghost predicate RowRests(run: seq<World>, moves: seq<Move>, n: nat, key: string)
    requires n < |run| && key in run[n].db.rows
  {
    var s, row := run[n], run[n].db.rows[key];
    match row.state
    case Broadcast => exists id, p :: RecordOf(s, key, p) && Known(run, moves, n, id, key, p)
    case Succeeded =>
      SendRoute(row.scope) ==> row.statusCode == 200 && exists id, p, requestId ::
        RecordOf(s, key, p) && Known(run, moves, n, id, key, p) && row.response == OkBody(BroadcastResult(p), requestId)
    case Unknown => exists id, p :: RecordOf(s, key, p) && Doubtful(run, moves, n, id, key, p)
    case FailedFinal =>
      && row.statusCode == 409 && NamesError(row.response, "MEMPOOL_REJECTED")
      && exists id, p :: RecordOf(s, key, p) && TurnedDown(run, moves, n, id, key, p)
    case _ => true
  }

  /** The body of a stored failure: no success, and this error code. */
  predicate NamesError(body: Json, code: string) {
    && body.Obj? && Get(body.fields, "success") == Bool(false) && Get(body.fields, "errorCode") == Str(code)
  }

  /** What a call can do to a row: keep what it stands for, start it over, or move it for its owner. */
  ghost predicate Moves(cfg: Config, db: Db, op: Op, now: int, k: string)
    requires k in Exec(cfg, db, op, now).0.rows
  {
    var row' := Exec(cfg, db, op, now).0.rows[k];
    || row'.state in {State.Claimed, State.Prepared}
    || (k in db.rows && row'.preparedRecordId == db.rows[k].preparedRecordId && row'.scope == db.rows[k].scope
        && (|| (row'.state == db.rows[k].state && (Settled(row'.state) ==> row' == db.rows[k]))
            || (op.key == k && OwnedBy(db, k, op.token)
                && match op
                   case MarkBroadcastOp(_, _, _) => row'.state == State.Broadcast
                   case MarkUnknownOp(_, _, _, _) => row'.state == Unknown
                   case MarkPreparedFailedOp(_, _, c, e, m) => row' == FailedRow(db.rows[k], c, e, m, now)
                   case StoreResponseOp(_, _, _, _, c, body) =>
                     row'.state == Succeeded && row'.statusCode == c && row'.response == body
                   case _ => false)))
  }

  lemma CallMoves(cfg: Config, db: Db, op: Op, now: int, k: string)
    requires DbOk(db) && k in Exec(cfg, db, op, now).0.rows && !op.RecordOp? && !op.PruneOp? && !op.MarkFailedOp?
    ensures Moves(cfg, db, op, now, k)
  {
    if k in db.rows { assert RowOk(db.rows[k], db.records); }
  }

  lemma RecordStays(s: World, s': World, key: string, p: PreparedBroadcast)
    requires RecordOf(s, key, p) && Extends(s, s') && key in s'.db.rows
    requires s'.db.rows[key].preparedRecordId == s.db.rows[key].preparedRecordId
    ensures RecordOf(s', key, p)
  {
  }

  lemma RowRestsStill(run: seq<World>, moves: seq<Move>, n: nat, key: string)
    requires n + 1 < |run| && Extends(run[n], run[n + 1]) && key in run[n].db.rows && key in run[n + 1].db.rows
    requires RowRests(run, moves, n, key)
    requires var row, row' := run[n].db.rows[key], run[n + 1].db.rows[key];
      && row'.state == row.state && row'.preparedRecordId == row.preparedRecordId && row'.scope == row.scope
      && (Settled(row'.state) ==> row' == row)
    ensures RowRests(run, moves, n + 1, key)
  {
    hide Extends, RecordOf, Known, Doubtful, TurnedDown, OkBody, BroadcastResult, NamesError;
    var s, row := run[n], run[n].db.rows[key];
    if row.state == State.Broadcast {
      var id, p :| RecordOf(s, key, p) && Known(run, moves, n, id, key, p);
      RecordStays(s, run[n + 1], key, p);
      LaterStill(run, moves, n, n + 1, id, key, p);
    } else if row.state == Succeeded && SendRoute(row.scope) {
      var id, p, requestId :| RecordOf(s, key, p) && Known(run, moves, n, id, key, p)
        && row.response == OkBody(BroadcastResult(p), requestId);
      RecordStays(s, run[n + 1], key, p);
      LaterStill(run, moves, n, n + 1, id, key, p);
    } else if row.state == Unknown {
      var id, p :| RecordOf(s, key, p) && Doubtful(run, moves, n, id, key, p);
      RecordStays(s, run[n + 1], key, p);
      DoubtfulStill(run, moves, n, id, key, p);
    } else if row.state == FailedFinal {
      var id, p :| RecordOf(s, key, p) && TurnedDown(run, moves, n, id, key, p);
      RecordStays(s, run[n + 1], key, p);
      LaterStill(run, moves, n, n + 1, id, key, p);
    }
  }

  lemma DoubtfulStill(run: seq<World>, moves: seq<Move>, n: nat, id: nat, key: string, p: PreparedBroadcast)
    requires Doubtful(run, moves, n, id, key, p)
    ensures Doubtful(run, moves, n + 1, id, key, p)
  {
    hide Mistaken, Lost;
    LaterStill(run, moves, n, n + 1, id, key, p);
    if !Mistaken(run, moves, n, id, key, p) {
      var status, error :| Lost(run, moves, n, id, key, p, status, error);
    }
  }

  /** A worker that marks the row it holds marks it for the record it carries. */
  lemma MarkerCarries(cfg: Config, s: World, id: nat, op: Op)
    requires Inv(s) && Calls(s, id, op) && (op.MarkBroadcastOp? || op.MarkUnknownOp? || op.MarkPreparedFailedOp?)
    requires OwnedBy(s.db, op.key, op.token)
    ensures CarriesChecked(s.workers[id].pc) && s.workers[id].call.key == op.key
    ensures RecordOf(s, op.key, s.workers[id].pc.prepared)
  {
    hide Inv, LocalOk, RowAwaits, RowOk;
    CallIsSensible(s, id, op);
    WorkerIsOk(s, id);
    OriginsOk(s);
    assert PointsToOwn(s, op.key);
  }

  lemma MarkRests(cfg: Config, run: seq<World>, moves: seq<Move>, n: nat, op: Op)
    requires BitcoinSend.IsRun(cfg, run, moves) && n < |moves| && moves[n].Act? && Inv(run[n])
    requires OpAt(run[n].workers[moves[n].id], "") == Some(op)
    requires op.MarkBroadcastOp? || op.MarkUnknownOp? || op.MarkPreparedFailedOp?
    requires op.key in run[n + 1].db.rows && OwnedBy(run[n].db, op.key, op.token)
    requires Rests(run, moves, n, moves[n].id, run[n].workers[moves[n].id])
    requires run[n + 1].db.rows[op.key].preparedRecordId == run[n].db.rows[op.key].preparedRecordId
    requires match op
      case MarkBroadcastOp(_, _, _) => run[n + 1].db.rows[op.key].state == State.Broadcast
      case MarkUnknownOp(_, _, _, _) => run[n + 1].db.rows[op.key].state == Unknown
      case MarkPreparedFailedOp(_, _, c, e, m) =>
        run[n + 1].db.rows[op.key] == FailedRow(run[n].db.rows[op.key], c, e, m, moves[n].now)
    ensures RowRests(run, moves, n + 1, op.key)
  {
    hide Inv, Fits, Extends, AfterRail, AfterStore, Exec, StoreAct, RecordOf, Known, TurnedDown, Lost, Mistaken, Hears;
    var s, id := run[n], moves[n].id;
    var p := s.workers[id].pc.prepared;
    assert run[n + 1] == Step(cfg, s, moves[n]);
    StepExtends(cfg, s, moves[n]);
    assert Calls(s, id, op);
    MarkerCarries(cfg, s, id, op);
    RecordStays(s, run[n + 1], op.key, p);
    MarkerHeard(run, moves, n, id, s.workers[id], op);
    LaterStill(run, moves, n, n + 1, id, op.key, p);
    if op.MarkUnknownOp? {
      DoubtfulStill(run, moves, n, id, op.key, p);
    } else if op.MarkPreparedFailedOp? {
      FailureNamesError(s.db.rows[op.key], op.statusCode, op.code, op.message, moves[n].now);
    }
  }

  lemma MarkerHeard(run: seq<World>, moves: seq<Move>, n: nat, id: nat, w: Worker, op: Op)
    requires n < |run| && Rests(run, moves, n, id, w) && OpAt(w, "") == Some(op)
    ensures op.MarkBroadcastOp? ==> Known(run, moves, n, id, w.call.key, w.pc.prepared)
    ensures op.MarkUnknownOp? ==> Doubtful(run, moves, n, id, w.call.key, w.pc.prepared)
    ensures op.MarkPreparedFailedOp? ==>
      TurnedDown(run, moves, n, id, w.call.key, w.pc.prepared) && op.statusCode == 409 && op.code == "MEMPOOL_REJECTED"
  {
    hide Known, TurnedDown, Lost, Mistaken, Hears;
    if op.MarkUnknownOp? && !Mistaken(run, moves, n, id, w.call.key, w.pc.prepared) {
      var status :| Lost(run, moves, n, id, w.call.key, w.pc.prepared, status, w.pc.error);
    }
  }

  lemma FailureNamesError(row: Row, statusCode: int, code: string, message: string, now: int)
    ensures var row' := FailedRow(row, statusCode, code, message, now);
      row'.statusCode == statusCode && NamesError(row'.response, code) && row'.state == FailedFinal
  {
    var fields := FailedRow(row, statusCode, code, message, now).response.fields;
    assert |"success"| != |"errorCode"|;
    assert Get(fields, "errorCode") == Get(fields[1..], "errorCode");
  }

  /** A stored success answers with the record of the row. */
  lemma ResponderCarries(cfg: Config, s: World, id: nat, op: Op, p: PreparedBroadcast)
    requires Inv(s) && Calls(s, id, op) && op.StoreResponseOp? && OwnedBy(s.db, op.key, op.token)
    requires SendRoute(s.db.rows[op.key].scope)
    requires OwnRecord(s, s.workers[id].call.key, s.workers[id].life, p)
    ensures s.workers[id].pc.Responding? && s.workers[id].call.key == op.key && SendRoute(s.workers[id].call.scope)
    ensures RecordOf(s, op.key, p)
  {
    hide Inv, LocksOk;
    CallIsSensible(s, id, op);
    WorkerIsOk(s, id);
    OriginsOk(s);
    assert RowOk(s.db.rows[op.key], s.db.records) && PointsToOwn(s, op.key);
  }

  lemma SuccessRests(cfg: Config, run: seq<World>, moves: seq<Move>, n: nat, op: Op)
    requires BitcoinSend.IsRun(cfg, run, moves) && n < |moves| && moves[n].Act? && Inv(run[n])
    requires OpAt(run[n].workers[moves[n].id], "") == Some(op) && op.StoreResponseOp?
    requires op.key in run[n + 1].db.rows && OwnedBy(run[n].db, op.key, op.token)
    requires Rests(run, moves, n, moves[n].id, run[n].workers[moves[n].id])
    requires var row, row' := run[n].db.rows[op.key], run[n + 1].db.rows[op.key];
      && row'.preparedRecordId == row.preparedRecordId && row'.scope == row.scope && row'.state == Succeeded
      && row'.statusCode == op.statusCode && row'.response == op.body
    ensures RowRests(run, moves, n + 1, op.key)
  {
    hide Inv, Fits, Extends, AfterRail, AfterStore, Exec, StoreAct, RecordOf, Known, Hears, OwnRecord, OkBody,
         BroadcastResult;
    var s, id := run[n], moves[n].id;
    var w := s.workers[id];
    if SendRoute(s.db.rows[op.key].scope) {
      assert Calls(s, id, op);
      ResponderIsSend(s, id, op);
      var p :| AnswersWith(run, moves, n, id, w.call, w.life, w.pc.statusCode, w.pc.body, p);
      assert run[n + 1] == Step(cfg, s, moves[n]);
      StepExtends(cfg, s, moves[n]);
      ResponderCarries(cfg, s, id, op, p);
      RecordStays(s, run[n + 1], op.key, p);
      LaterStill(run, moves, n, n + 1, id, op.key, p);
    }
  }

  lemma ResponderIsSend(s: World, id: nat, op: Op)
    requires Inv(s) && Calls(s, id, op) && op.StoreResponseOp? && OwnedBy(s.db, op.key, op.token)
    ensures s.workers[id].pc.Responding? && s.workers[id].call.key == op.key
    ensures s.workers[id].call.scope == s.db.rows[op.key].scope
  {
    hide Inv, LocksOk;
    CallIsSensible(s, id, op);
    WorkerIsOk(s, id);
  }

  lemma ActRowRests(cfg: Config, run: seq<World>, moves: seq<Move>, n: nat, op: Op, key: string)
    requires BitcoinSend.IsRun(cfg, run, moves) && n < |moves| && moves[n].Act? && Inv(run[n])
    requires OpAt(run[n].workers[moves[n].id], moves[n].drawn) == Some(op)
    requires key in run[n + 1].db.rows && (key in run[n].db.rows ==> RowRests(run, moves, n, key))
    ensures RowRests(run, moves, n + 1, key)
  {
    hide Inv, Fits, Extends, AfterRail, AfterStore, Exec, StoreAct, Rests, DbOk, RowRests, OpAt, Known, TurnedDown,
         Doubtful;
    var s, id := run[n], moves[n].id;
    assert run[n + 1] == Step(cfg, s, moves[n]);
    assert run[n + 1].db == Exec(cfg, s.db, op, moves[n].now).0 by { StoreActTables(cfg, s, id, op, moves[n].now); }
    CallsAreMade(s, moves[n], op);
    CallIsSensible(s, id, op);
    TablesOk(s);
    CallMoves(cfg, s.db, op, moves[n].now, key);
    WorkerRests(cfg, run, moves, n, id);
    StepExtends(cfg, s, moves[n]);
    var row' := run[n + 1].db.rows[key];
    if row'.state in {State.Claimed, State.Prepared} {
      NothingToRestOn(run, moves, n + 1, key);
    } else if row'.state == s.db.rows[key].state && (Settled(row'.state) ==> row' == s.db.rows[key]) {
      RowRestsStill(run, moves, n, key);
    } else if op.StoreResponseOp? {
      SuccessRests(cfg, run, moves, n, op);
    } else {
      MarkRests(cfg, run, moves, n, op);
    }
  }

  lemma CallsAreMade(s: World, move: Move, op: Op)
    requires Enabled(s, move) && move.Act? && OpAt(s.workers[move.id], move.drawn) == Some(op)
    ensures Calls(s, move.id, op) && (!op.ClaimOp? ==> OpAt(s.workers[move.id], "") == Some(op))
  {
    hide Fits;
  }

  lemma StoreActTables(cfg: Config, s: World, id: nat, op: Op, now: int)
    requires id in s.workers
    ensures StoreAct(cfg, s, id, op, now).db == Exec(cfg, s.db, op, now).0
  {
    hide Exec, AfterStore;
  }

  lemma NothingToRestOn(run: seq<World>, moves: seq<Move>, n: nat, key: string)
    requires n < |run| && key in run[n].db.rows && run[n].db.rows[key].state in {State.Claimed, State.Prepared}
    ensures RowRests(run, moves, n, key)
  {
  }

  lemma ActorsExist(s: World, move: Move)
    requires Enabled(s, move)
    ensures move.Act? ==> move.id in s.workers
  {
  }

  /** Moves that make no store call of a worker leave the rows that stay as they are. */
  lemma OtherMovesKeepRows(cfg: Config, s: World, move: Move, key: string)
    requires Inv(s) && Enabled(s, move) && key in Step(cfg, s, move).db.rows
    requires !(move.Act? && OpAt(s.workers[move.id], move.drawn).Some?)
    ensures key in s.db.rows && Step(cfg, s, move).db.rows[key] == s.db.rows[key]
  {
    hide Inv, AfterRail, Fits, OpAt;
  }

  lemma {:induction false} EveryRowRests(cfg: Config, run: seq<World>, moves: seq<Move>, n: nat, key: string)
    requires BitcoinSend.IsRun(cfg, run, moves) && n < |run| && key in run[n].db.rows
    ensures RowRests(run, moves, n, key)
  {
    hide Inv, RowRests, Step, Enabled, Extends, OpAt;
    var s, move := run[n - 1], moves[n - 1];
    assert run[n - 1 + 1] == Step(cfg, s, move) && Enabled(s, move);
    ActorsExist(s, move);
    ReachableInv(cfg, run, moves, n - 1);
    if key in s.db.rows { EveryRowRests(cfg, run, moves, n - 1, key); }
    if move.Act? && OpAt(s.workers[move.id], move.drawn).Some? {
      ActRowRests(cfg, run, moves, n - 1, OpAt(s.workers[move.id], move.drawn).value, key);
    } else {
      OtherMovesKeepRows(cfg, s, move, key);
      StepExtends(cfg, s, move);
      RowRestsStill(run, moves, n - 1, key);
    }
  }

  // ------------------------------------------------------------ theorems about rows

  /**
   A row of the send route is BROADCAST or SUCCEEDED only if the node said so: at an earlier step
   a worker of its key that carried the row's own record was told that the transaction is known,
   or that its submission was taken under the record's txid.
   */
  lemma BroadcastIsTheNodesWord(cfg: Config, run: seq<World>, moves: seq<Move>, n: nat, key: string)
    returns (m: nat, id: nat, p: PreparedBroadcast)
    requires BitcoinSend.IsRun(cfg, run, moves) && n < |run| && key in run[n].db.rows
    requires var row := run[n].db.rows[key];
      row.state == State.Broadcast || (row.state == Succeeded && SendRoute(row.scope))
    ensures m < n && RecordOf(run[n], key, p)
    ensures HearsOf(run, moves, m, id, key, p, LookupKnown)
         || HearsOf(run, moves, m, id, key, p, SendReturns(p.expectedTxid))
  {
    hide RecordOf, HearsOf;
    EveryRowRests(cfg, run, moves, n, key);
    id, p :| RecordOf(run[n], key, p) && Known(run, moves, n, id, key, p);
    assert Known(run, moves, n, id, key, p);
    m :| m < n && HearsKnown(run, moves, m, id, key, p);
  }

  /**
   A row is FAILED_FINAL only if the mempool refused the row's own record and, after that, the node
   did not know it, both told to one worker of its key.
   */
  lemma RejectionIsTheNodesWord(cfg: Config, run: seq<World>, moves: seq<Move>, n: nat, key: string)
    returns (a: nat, b: nat, id: nat, p: PreparedBroadcast)
    requires BitcoinSend.IsRun(cfg, run, moves) && n < |run| && key in run[n].db.rows
    requires run[n].db.rows[key].state == FailedFinal
    ensures a < b < n && RecordOf(run[n], key, p)
    ensures HearsOf(run, moves, a, id, key, p, MempoolRejects) && HearsOf(run, moves, b, id, key, p, LookupUnknown)
    ensures run[n].db.rows[key].statusCode == 409 && NamesError(run[n].db.rows[key].response, "MEMPOOL_REJECTED")
  {
    hide RecordOf, HearsOf, NamesError;
    EveryRowRests(cfg, run, moves, n, key);
    id, p :| RecordOf(run[n], key, p) && TurnedDown(run, moves, n, id, key, p);
    a, b :| a < b < n
      && HearsOf(run, moves, a, id, key, p, MempoolRejects) && HearsOf(run, moves, b, id, key, p, LookupUnknown);
  }

  /**
   A row is UNKNOWN only if a worker of its key that carried the row's own record lost the node's
   answer to its submission and, after that, the node did not know the transaction, or was answered
   with the txid of another one.
   */
  lemma DoubtIsTheNodesWord(cfg: Config, run: seq<World>, moves: seq<Move>, n: nat, key: string)
    returns (a: nat, b: nat, id: nat, p: PreparedBroadcast)
    requires BitcoinSend.IsRun(cfg, run, moves) && n < |run| && key in run[n].db.rows
    requires run[n].db.rows[key].state == Unknown
    ensures a <= b < n && RecordOf(run[n], key, p)
    ensures
      || (exists txid :: txid != p.expectedTxid && HearsOf(run, moves, a, id, key, p, SendReturns(txid)))
      || (a < b && HearsOf(run, moves, b, id, key, p, LookupUnknown)
          && exists status, error :: HearsOf(run, moves, a, id, key, p, SendBreaks(status, error)))
  {
    hide RecordOf, HearsOf;
    EveryRowRests(cfg, run, moves, n, key);
    id, p :| RecordOf(run[n], key, p) && Doubtful(run, moves, n, id, key, p);
    if Mistaken(run, moves, n, id, key, p) {
      var txid;
      a, txid :| a < n && txid != p.expectedTxid && HearsOf(run, moves, a, id, key, p, SendReturns(txid));
      b := a;
    } else {
      var status, error :| Lost(run, moves, n, id, key, p, status, error);
      a, b :| a < b < n && HearsOf(run, moves, a, id, key, p, SendBreaks(status, error))
        && HearsOf(run, moves, b, id, key, p, LookupUnknown);
    }
  }

  /** `body["data"]` */
  function Data(body: Json): seq<Field> {
    if body.Obj? && Get(body.fields, "data").Obj? then Get(body.fields, "data").fields else []
  }

  lemma ResultFields(p: PreparedBroadcast, requestId: string)
    ensures var body := OkBody(BroadcastResult(p), requestId);
      && Get(body.fields, "success") == Bool(true) && Get(body.fields, "requestId") == Str(requestId)
      && Get(Data(body), "recordId") == Int(p.recordId) && Get(Data(body), "wallet") == Str(p.wallet)
      && Get(Data(body), "txid") == Str(p.expectedTxid) && Get(Data(body), "feeSats") == Int(p.feeSats)
      && Get(Data(body), "totalOutputSats") == Int(p.totalOutputSats)
      && Get(Data(body), "mempoolAccepted") == Bool(true)
  {
    var data := BroadcastResult(p).fields;
    var body := OkBody(BroadcastResult(p), requestId).fields;
    assert DistinctKeys(body) by { assert |"success"| == 7 && |"data"| == 4 && |"requestId"| == 9; }
    assert Get(body, body[0].key) == body[0].value by { GetFinds(body, 0); }
    assert Get(body, body[1].key) == body[1].value by { GetFinds(body, 1); }
    assert Get(body, body[2].key) == body[2].value by { GetFinds(body, 2); }
    assert DistinctKeys(data) by {
      assert |"recordId"| == 8 && |"wallet"| == 6 && |"txid"| == 4 && |"feeSats"| == 7;
      assert |"totalOutputSats"| == 15 && |"mempoolAccepted"| == 15 && "totalOutputSats"[0] != "mempoolAccepted"[0];
    }
    AllFound(data);
    assert data[0].key == "recordId" && data[1].key == "wallet" && data[2].key == "txid";
    assert data[3].key == "feeSats" && data[4].key == "totalOutputSats" && data[5].key == "mempoolAccepted";
  }

  lemma AllFound(fields: seq<Field>)
    requires DistinctKeys(fields)
    ensures forall i :: 0 <= i < |fields| ==> Get(fields, fields[i].key) == fields[i].value
  {
    forall i | 0 <= i < |fields|
      ensures Get(fields, fields[i].key) == fields[i].value
    {
      GetFinds(fields, i);
    }
  }

  /**
   What a success of the send route answers: status 200, and in its data the number, wallet, txid,
   fee and total of the very record the row is linked to.
   */
  lemma SuccessAnswersWithTheRecord(cfg: Config, run: seq<World>, moves: seq<Move>, n: nat, key: string)
    requires BitcoinSend.IsRun(cfg, run, moves) && n < |run| && key in run[n].db.rows
    requires run[n].db.rows[key].state == Succeeded && SendRoute(run[n].db.rows[key].scope)
    ensures run[n].db.rows[key].preparedRecordId.Some?
    ensures run[n].db.rows[key].preparedRecordId.value in run[n].db.records
    ensures var row := run[n].db.rows[key];
      var id := row.preparedRecordId.value;
      var record, data := run[n].db.records[id], Data(row.response);
      && row.statusCode == 200 && row.response.Obj? && Get(row.response.fields, "success") == Bool(true)
      && Get(data, "recordId") == Int(id) && Get(data, "wallet") == Str(record.wallet)
      && Get(data, "txid") == Str(record.txid) && Get(data, "feeSats") == Int(record.feeSats)
      && Get(data, "totalOutputSats") == Int(record.totalOutputSats) && record.status == TxBroadcast
  {
    hide Known, OkBody, BroadcastResult, Data;
    SuccessMeansBroadcast(cfg, run, moves, n, key);
    EveryRowRests(cfg, run, moves, n, key);
    var row := run[n].db.rows[key];
    var id, p, requestId :| RecordOf(run[n], key, p) && Known(run, moves, n, id, key, p)
      && row.response == OkBody(BroadcastResult(p), requestId);
    ResultFields(p, requestId);
  }

  /** What a finished send request was answered, and what that rests on. */
  lemma AnswersRestOnTheNode(
      cfg: Config, run: seq<World>, moves: seq<Move>, n: nat, id: nat, outcome: Outcome)
    requires BitcoinSend.IsRun(cfg, run, moves) && n < |run| && id in run[n].workers
    requires run[n].workers[id].pc == Finished(outcome)
    requires run[n].workers[id].token.Some? && SendRoute(run[n].workers[id].call.scope)
    ensures EndRests(run, moves, n, id, run[n].workers[id].call, run[n].workers[id].life, outcome)
  {
    WorkerRests(cfg, run, moves, n, id);
  }

  // ------------------------------------------------------------ theorems about submissions and records

  /**
   Before anything is submitted, to one and the same worker: broadcasting was switched on and
   confirmed, the node did not know the transaction, and after that the mempool would take it.
   */
  lemma SubmissionsAreCleared(cfg: Config, run: seq<World>, moves: seq<Move>, n: nat, i: nat)
    returns (a: nat, p: PreparedBroadcast)
    requires BitcoinSend.IsRun(cfg, run, moves) && n < |run| && i < |run[n].history| && run[n].history[i].Sent?
    ensures var e := run[n].history[i];
      && a < n && Appends(run, a, e) && p.rawTx == e.rawTx && p.recordId == e.recordId
      && Cleared(run, moves, a, e.worker, e.life.key) && Allowed(run, moves, a, e.worker, e.life.key, p)
  {
    hide Step, Enabled, Hears, Appends;
    var e := run[n].history[i];
    a := AppendedAt(cfg, run, moves, n, e);
    AppendsIsAStep(cfg, run, moves, a, e);
    SubmitsWhatItCarries(cfg, run[a], moves[a], e);
    p := run[a].workers[e.worker].pc.prepared;
    WorkerRests(cfg, run, moves, a, e.worker);
  }

  lemma AppendsIsAStep(cfg: Config, run: seq<World>, moves: seq<Move>, a: nat, e: Event)
    requires BitcoinSend.IsRun(cfg, run, moves) && Appends(run, a, e)
    ensures Enabled(run[a], moves[a]) && run[a + 1] == Step(cfg, run[a], moves[a])
    ensures Step(cfg, run[a], moves[a]).history == run[a].history + [e]
  {
  }

  /** The record holds the draft the wallet funded and signed. */
  ghost predicate HoldsDraft(r: TxRecord, d: Draft) {
    && r.wallet == d.wallet && r.outputs == d.outputs && r.psbt == d.psbt && r.rawTx == d.rawTx
    && r.txid == d.expectedTxid && r.feeSats == d.feeSats && r.totalOutputSats == d.totalOutputSats
  }

  ghost predicate RecordIsSigned(run: seq<World>, moves: seq<Move>, n: nat, r: nat)
    requires n < |run|
  {
    r in run[n].origin && r in run[n].db.records && exists id, d ::
      Signed(run, moves, n, id, run[n].origin[r].key, d) && HoldsDraft(run[n].db.records[r], d)
  }

  lemma SignedStill(run: seq<World>, moves: seq<Move>, n: nat, r: nat)
    requires n + 1 < |run| && Extends(run[n], run[n + 1]) && RecordIsSigned(run, moves, n, r)
    ensures RecordIsSigned(run, moves, n + 1, r)
  {
    hide Hears;
    var id, d :| Signed(run, moves, n, id, run[n].origin[r].key, d) && HoldsDraft(run[n].db.records[r], d);
    assert Signed(run, moves, n + 1, id, run[n].origin[r].key, d);
  }

  /** Only a worker that saves adds a record of a life, and the record holds its draft. */
  lemma NewRecord(cfg: Config, s: World, move: Move, r: nat)
    requires Inv(s) && Enabled(s, move) && r !in s.origin && r in Step(cfg, s, move).origin
    ensures move.Act? && move.id in s.workers && s.workers[move.id].pc.Saving?
    ensures var s', w := Step(cfg, s, move), s.workers[move.id];
      s'.origin[r].key == w.call.key && r in s'.db.records && HoldsDraft(s'.db.records[r], w.pc.draft)
  {
    hide Inv, AfterRail, AfterStore, Fits;
    var op := OpAt(s.workers[move.id], move.drawn).value;
    SaveInsertsDraft(cfg, s.db, op, move.now);
  }

  /**
   Every transaction persisted in any run was funded and then signed by the wallet for a worker of
   its key: the record holds the wallet's own bytes, txid, outputs, fee and total, and its signed
   PSBT or, if it gave none, the funded one.
   */
  lemma {:induction false} RecordsAreSigned(cfg: Config, run: seq<World>, moves: seq<Move>, n: nat, r: nat)
    requires BitcoinSend.IsRun(cfg, run, moves) && n < |run| && r in run[n].origin
    ensures RecordIsSigned(run, moves, n, r)
  {
    hide Inv, Step, Enabled, Extends, RecordIsSigned;
    var s, move := run[n - 1], moves[n - 1];
    assert run[n - 1 + 1] == Step(cfg, s, move);
    ReachableInv(cfg, run, moves, n - 1);
    StepExtends(cfg, s, move);
    if r in s.origin {
      RecordsAreSigned(cfg, run, moves, n - 1, r);
      SignedStill(run, moves, n - 1, r);
    } else {
      NewRecord(cfg, s, move, r);
      WorkerRests(cfg, run, moves, n - 1, move.id);
      NewIsSigned(run, moves, n, move.id, s.workers[move.id], r);
    }
  }

  lemma NewIsSigned(run: seq<World>, moves: seq<Move>, n: nat, id: nat, w: Worker, r: nat)
    requires 0 < n < |run| && Rests(run, moves, n - 1, id, w) && w.pc.Saving?
    requires r in run[n].origin && r in run[n].db.records
    requires run[n].origin[r].key == w.call.key && HoldsDraft(run[n].db.records[r], w.pc.draft)
    ensures RecordIsSigned(run, moves, n, r)
  {
    hide Hears;
    assert Signed(run, moves, n, id, w.call.key, w.pc.draft);
  }

  /** So what is submitted, in any run, is what the wallet signed for a worker of the key. */
  lemma SubmissionsAreSigned(cfg: Config, run: seq<World>, moves: seq<Move>, n: nat, i: nat)
    returns (id: nat, d: Draft)
    requires BitcoinSend.IsRun(cfg, run, moves) && n < |run| && i < |run[n].history| && run[n].history[i].Sent?
    ensures Signed(run, moves, n, id, run[n].history[i].life.key, d) && d.rawTx == run[n].history[i].rawTx
  {
    hide Signed, HoldsDraft;
    ReachableInv(cfg, run, moves, n);
    TablesOk(run[n]);
    assert EventOk(run[n], i);
    var c := CommitOf(run[n], i);
    assert EventOk(run[n], c);
    var r := run[n].history[i].recordId;
    RecordsAreSigned(cfg, run, moves, n, r);
    id, d :| Signed(run, moves, n, id, run[n].origin[r].key, d) && HoldsDraft(run[n].db.records[r], d);
    DraftBytes(run[n].db.records[r], d);
  }

  lemma DraftBytes(r: TxRecord, d: Draft)
    requires HoldsDraft(r, d)
    ensures r.rawTx == d.rawTx
  {
  }
}
