/**
 What a finished request tells its caller about the tables: a success has been stored, a
 rejection or a doubt has been recorded, and a lost claim was reported by the store.
 */
module BitcoinSendAnswers {
  import opened Prelude
  import opened Json
  import opened BitcoinStore
  import opened BitcoinStoreProofs
  import opened BitcoinSend
  import opened BitcoinSendInvariant
  import opened BitcoinSendSteps
  import opened BitcoinSendLives

  /** At step `m` of the run the worker makes this call and is given this reply. */
  ghost predicate Called(
      cfg: Config, run: seq<World>, moves: seq<Move>, m: int, id: nat, op: Op, reply: Reply)
  {
    && 0 <= m < |moves| && m < |run| && moves[m].Act? && moves[m].id == id
    && match CallOf(run[m], moves[m])
       case Some((made, now)) => made == op && Exec(cfg, run[m].db, op, now).1 == reply
       case None => false
  }

  /** Before step `n` a call of the worker was reported lost. */
  ghost predicate WasLost(cfg: Config, run: seq<World>, moves: seq<Move>, n: nat, id: nat) {
    exists m: nat, op, reply :: m < n && Called(cfg, run, moves, m, id, op, reply) && ReportsLost(reply)
  }

  ghost predicate WasStored(
      cfg: Config, run: seq<World>, moves: seq<Move>, n: nat, id: nat, statusCode: int, body: Json)
  {
    exists m: nat, op :: m < n && Called(cfg, run, moves, m, id, op, Stored)
      && op.StoreResponseOp? && op.statusCode == statusCode && op.body == body
  }

  ghost predicate WasRejected(cfg: Config, run: seq<World>, moves: seq<Move>, n: nat, id: nat) {
    exists m: nat, op :: m < n && Called(cfg, run, moves, m, id, op, Stored) && op.MarkPreparedFailedOp?
  }

  ghost predicate WasDoubted(cfg: Config, run: seq<World>, moves: seq<Move>, n: nat, id: nat) {
    exists m: nat, op :: m < n && Called(cfg, run, moves, m, id, op, Stored) && op.MarkUnknownOp?
  }

  ghost predicate Told(
      cfg: Config, run: seq<World>, moves: seq<Move>, n: nat, id: nat, outcome: BitcoinSend.Outcome)
  {
    match outcome
    case Answered(c, body) => 200 <= c < 300 ==> WasStored(cfg, run, moves, n, id, c, body)
    case Failed(_, code) =>
      && (code == "IDEMPOTENCY_CLAIM_LOST" ==> WasLost(cfg, run, moves, n, id))
      && (code == "MEMPOOL_REJECTED" ==> WasRejected(cfg, run, moves, n, id))
      && (code == "BROADCAST_TXID_MISMATCH" || code == "BROADCAST_RESULT_UNKNOWN" ==>
            WasDoubted(cfg, run, moves, n, id))
  }

  /** What has been told by where the worker stands. */
  ghost predicate Recorded(cfg: Config, run: seq<World>, moves: seq<Move>, n: nat, id: nat, w: Worker) {
    match w.pc
    case Unlocking(_, outcome) => Told(cfg, run, moves, n, id, outcome) && outcome.Failed?
    case UnlockingRejected(_) => WasRejected(cfg, run, moves, n, id)
    case MarkingUnknown(_, _, outcome) => DoubtOutcome(outcome)
    case Finished(outcome) => w.token.Some? ==> Told(cfg, run, moves, n, id, outcome)
    case _ => true
  }

  predicate DoubtOutcome(outcome: BitcoinSend.Outcome) {
    outcome.Failed? && outcome.code in {"BROADCAST_TXID_MISMATCH", "BROADCAST_RESULT_UNKNOWN"}
  }

  lemma StillTold(
      cfg: Config, run: seq<World>, moves: seq<Move>, n: nat, id: nat, outcome: BitcoinSend.Outcome)
    requires Told(cfg, run, moves, n, id, outcome)
    ensures Told(cfg, run, moves, n + 1, id, outcome)
  {
    hide Called;
  }

  lemma StillRecorded(cfg: Config, run: seq<World>, moves: seq<Move>, n: nat, id: nat, w: Worker)
    requires Recorded(cfg, run, moves, n, id, w)
    ensures Recorded(cfg, run, moves, n + 1, id, w)
  {
    hide Called, Told;
    if w.pc.Unlocking? || (w.pc.Finished? && w.token.Some?) {
      StillTold(cfg, run, moves, n, id, w.pc.outcome);
    }
  }

  // ------------------------------------------------------------ one step

  lemma OtherFailure(cfg: Config, run: seq<World>, moves: seq<Move>, n: nat, id: nat, c: int, code: string)
    requires code in {"INTERNAL_ERROR", "INVALID_TXID", "BROADCAST_DISABLED", "BROADCAST_CONFIRMATION_REQUIRED",
                      "PSBT_NOT_FINAL", "IDEMPOTENCY_KEY_REUSED", "IDEMPOTENCY_IN_PROGRESS",
                      "PREPARED_BROADCAST_CORRUPT"}
    ensures Told(cfg, run, moves, n, id, Failed(c, code))
  {
  }

  lemma RailRecords(cfg: Config, run: seq<World>, moves: seq<Move>, n: nat, id: nat, w: Worker, answer: Answer)
    requires Recorded(cfg, run, moves, n, id, w) && Fits(w.pc, answer)
    ensures Recorded(cfg, run, moves, n + 1, id, AfterRail(w, answer))
  {
    hide Recorded, AfterRail;
    if CarriesChecked(w.pc) {
      CarriedRecords(cfg, run, moves, n, id, w, answer);
    } else {
      PreparingRecords(cfg, run, moves, n, id, w, answer);
    }
  }

  lemma CarriedRecords(cfg: Config, run: seq<World>, moves: seq<Move>, n: nat, id: nat, w: Worker, answer: Answer)
    requires Recorded(cfg, run, moves, n, id, w) && Fits(w.pc, answer) && CarriesChecked(w.pc)
    ensures Recorded(cfg, run, moves, n + 1, id, AfterRail(w, answer))
  {
    hide Recorded, AfterRail;
    if w.pc.Sending? || w.pc.UnlockingRejected? {
      SubmissionRecords(cfg, run, moves, n, id, w, answer);
    } else {
      QuestionRecords(cfg, run, moves, n, id, w, answer);
    }
  }

  lemma SubmissionRecords(cfg: Config, run: seq<World>, moves: seq<Move>, n: nat, id: nat, w: Worker, answer: Answer)
    requires Recorded(cfg, run, moves, n, id, w) && Fits(w.pc, answer)
    requires w.pc.Sending? || w.pc.UnlockingRejected?
    ensures Recorded(cfg, run, moves, n + 1, id, AfterRail(w, answer))
  {
    hide Told, WasRejected, ValidTxid;
    OtherFailure(cfg, run, moves, n + 1, id, 400, "INVALID_TXID");
    if w.pc.UnlockingRejected? { RejectedIsTold(cfg, run, moves, n, id); }
  }

  lemma QuestionRecords(cfg: Config, run: seq<World>, moves: seq<Move>, n: nat, id: nat, w: Worker, answer: Answer)
    requires Fits(w.pc, answer) && CarriesChecked(w.pc) && !w.pc.Sending? && !w.pc.UnlockingRejected?
    ensures Recorded(cfg, run, moves, n + 1, id, AfterRail(w, answer))
  {
    hide Told, DoubtOutcome;
    OtherFailure(cfg, run, moves, n + 1, id, 500, "INTERNAL_ERROR");
    forall c { LossIsDoubt(c); }
  }

  lemma LossIsDoubt(c: int)
    ensures DoubtOutcome(Failed(c, "BROADCAST_RESULT_UNKNOWN"))
  {
  }

  lemma PreparingRecords(cfg: Config, run: seq<World>, moves: seq<Move>, n: nat, id: nat, w: Worker, answer: Answer)
    requires Recorded(cfg, run, moves, n, id, w) && Fits(w.pc, answer) && !CarriesChecked(w.pc)
    ensures Recorded(cfg, run, moves, n + 1, id, AfterRail(w, answer))
  {
    hide Called, Told, ValidTxid, SignedDraft, OkBody;
    if w.pc.Unlocking? {
      StillTold(cfg, run, moves, n, id, w.pc.outcome);
    } else if w.pc.Working? {
      WorkRecords(cfg, run, moves, n, id, w, answer);
    } else {
      OtherFailure(cfg, run, moves, n + 1, id, 500, "INTERNAL_ERROR");
      OtherFailure(cfg, run, moves, n + 1, id, 403, "BROADCAST_DISABLED");
      OtherFailure(cfg, run, moves, n + 1, id, 400, "BROADCAST_CONFIRMATION_REQUIRED");
      OtherFailure(cfg, run, moves, n + 1, id, 409, "PSBT_NOT_FINAL");
    }
  }

  lemma WorkRecords(cfg: Config, run: seq<World>, moves: seq<Move>, n: nat, id: nat, w: Worker, answer: Answer)
    requires Fits(w.pc, answer) && w.pc.Working?
    ensures Recorded(cfg, run, moves, n + 1, id, AfterRail(w, answer))
  {
    hide Told, OkBody;
    OtherFailure(cfg, run, moves, n + 1, id, 500, "INTERNAL_ERROR");
    if answer.HandlerReturns? && !(200 <= answer.statusCode < 300) {
      NotStored(cfg, run, moves, n + 1, id, answer.statusCode, OkBody(answer.payload, w.call.requestId));
    }
  }

  lemma RejectedIsTold(cfg: Config, run: seq<World>, moves: seq<Move>, n: nat, id: nat)
    requires WasRejected(cfg, run, moves, n, id)
    ensures Told(cfg, run, moves, n + 1, id, Failed(409, "MEMPOOL_REJECTED"))
  {
    hide Called;
  }

  lemma NotStored(cfg: Config, run: seq<World>, moves: seq<Move>, n: nat, id: nat, c: int, body: Json)
    requires !(200 <= c < 300)
    ensures Told(cfg, run, moves, n, id, Answered(c, body))
  {
  }

  lemma LostIsTold(cfg: Config, run: seq<World>, moves: seq<Move>, n: nat, id: nat, op: Op, reply: Reply)
    requires Called(cfg, run, moves, n, id, op, reply) && ReportsLost(reply)
    ensures Told(cfg, run, moves, n + 1, id, CLAIM_LOST)
  {
    hide Called;
  }

  lemma RefusedIsTold(cfg: Config, run: seq<World>, moves: seq<Move>, n: nat, id: nat, op: Op, why: Refusal)
    requires Called(cfg, run, moves, n, id, op, Refused(why))
    ensures Told(cfg, run, moves, n + 1, id, RefusalOutcome(why)) && RefusalOutcome(why).Failed?
  {
    hide Called, Told;
    match why
    case ClaimLost => LostIsTold(cfg, run, moves, n, id, op, Refused(why));
    case KeyReused => OtherFailure(cfg, run, moves, n + 1, id, 409, "IDEMPOTENCY_KEY_REUSED");
    case InProgress => OtherFailure(cfg, run, moves, n + 1, id, 409, "IDEMPOTENCY_IN_PROGRESS");
    case PreparedCorrupt => OtherFailure(cfg, run, moves, n + 1, id, 500, "PREPARED_BROADCAST_CORRUPT");
  }

  /** The replies each call can be given. */
  lemma RepliesOf(cfg: Config, db: Db, op: Op, now: int)
    ensures var reply := Exec(cfg, db, op, now).1;
      match op
      case ClaimOp(_, _, _, _) => reply.Claim? || reply.Replay? || reply.Refused?
      case LoadPreparedOp(_, _) => reply.Loaded? || reply.Refused? || reply.NothingPrepared?
      case SavePreparedOp(_, _, _, _) => reply.Loaded? || reply.Refused?
      case HeartbeatOp(_, _) => reply.Beat?
      case RecordOp(_) => reply.Inserted?
      case PruneOp => reply.Pruned?
      case _ => reply == Stored || reply == Refused(ClaimLost)
  {
  }

  lemma StoreRecords(
      cfg: Config, run: seq<World>, moves: seq<Move>, n: nat, id: nat, w: Worker, drawn: string, op: Op, reply: Reply,
      life: nat, wrote: bool)
    requires Recorded(cfg, run, moves, n, id, w) && OpAt(w, drawn) == Some(op) && (w.pc.Claiming? ==> w.token.None?)
    requires Called(cfg, run, moves, n, id, op, reply)
    ensures Recorded(cfg, run, moves, n + 1, id, AfterStore(w, reply, life, wrote))
  {
    hide Recorded, AfterStore, Called;
    RepliesAt(cfg, run, moves, n, id, op, reply);
    if reply.Refused? {
      RefusalRecords(cfg, run, moves, n, id, w, drawn, op, reply, life, wrote);
    } else if w.pc.Responding? || w.pc.Rejecting? || w.pc.MarkingUnknown? {
      AcceptanceRecords(cfg, run, moves, n, id, w, drawn, op, reply, life, wrote);
    } else {
      ProgressRecords(cfg, run, moves, n, id, w, drawn, op, reply, life, wrote);
    }
  }

  lemma RepliesAt(cfg: Config, run: seq<World>, moves: seq<Move>, n: nat, id: nat, op: Op, reply: Reply)
    requires Called(cfg, run, moves, n, id, op, reply)
    ensures match op
      case ClaimOp(_, _, _, _) => reply.Claim? || reply.Replay? || reply.Refused?
      case LoadPreparedOp(_, _) => reply.Loaded? || reply.Refused? || reply.NothingPrepared?
      case SavePreparedOp(_, _, _, _) => reply.Loaded? || reply.Refused?
      case HeartbeatOp(_, _) => reply.Beat?
      case RecordOp(_) => reply.Inserted?
      case PruneOp => reply.Pruned?
      case _ => reply == Stored || reply == Refused(ClaimLost)
  {
    RepliesOf(cfg, run[n].db, op, CallOf(run[n], moves[n]).value.1);
  }

  lemma RefusalRecords(
      cfg: Config, run: seq<World>, moves: seq<Move>, n: nat, id: nat, w: Worker, drawn: string, op: Op, reply: Reply,
      life: nat, wrote: bool)
    requires OpAt(w, drawn) == Some(op) && (w.pc.Claiming? ==> w.token.None?)
    requires Called(cfg, run, moves, n, id, op, reply) && reply.Refused?
    ensures Recorded(cfg, run, moves, n + 1, id, AfterStore(w, reply, life, wrote))
  {
    hide Called, Told, RefusalOutcome;
    RefusedIsTold(cfg, run, moves, n, id, op, reply.why);
    RepliesAt(cfg, run, moves, n, id, op, reply);
    if reply.why.ClaimLost? { LostIsTold(cfg, run, moves, n, id, op, reply); }
  }

  lemma AcceptanceRecords(
      cfg: Config, run: seq<World>, moves: seq<Move>, n: nat, id: nat, w: Worker, drawn: string, op: Op, reply: Reply,
      life: nat, wrote: bool)
    requires Recorded(cfg, run, moves, n, id, w) && OpAt(w, drawn) == Some(op)
    requires w.pc.Responding? || w.pc.Rejecting? || w.pc.MarkingUnknown?
    requires Called(cfg, run, moves, n, id, op, reply) && reply == Stored
    ensures Recorded(cfg, run, moves, n + 1, id, AfterStore(w, reply, life, wrote))
  {
    hide Called;
    assert Called(cfg, run, moves, n, id, op, Stored);
  }

  lemma ProgressRecords(
      cfg: Config, run: seq<World>, moves: seq<Move>, n: nat, id: nat, w: Worker, drawn: string, op: Op, reply: Reply,
      life: nat, wrote: bool)
    requires OpAt(w, drawn) == Some(op) && (w.pc.Claiming? ==> w.token.None?) && !reply.Refused?
    requires Called(cfg, run, moves, n, id, op, reply)
    requires !w.pc.Responding? && !w.pc.Rejecting? && !w.pc.MarkingUnknown?
    ensures Recorded(cfg, run, moves, n + 1, id, AfterStore(w, reply, life, wrote))
  {
    hide Called, Told, OkBody, BroadcastResult, TagReplay;
    RepliesAt(cfg, run, moves, n, id, op, reply);
    if reply == Beat(false) { LostIsTold(cfg, run, moves, n, id, op, reply); }
  }

  // ------------------------------------------------------------ runs

  lemma ActorRecords(cfg: Config, run: seq<World>, moves: seq<Move>, n: nat)
    requires BitcoinSend.IsRun(cfg, run, moves) && n < |moves| && moves[n].Act? && Inv(run[n])
    requires Recorded(cfg, run, moves, n, moves[n].id, run[n].workers[moves[n].id])
    ensures Recorded(cfg, run, moves, n + 1, moves[n].id, run[n + 1].workers[moves[n].id])
  {
    hide Inv, Recorded, Fits, TokenLink, CarriedOk, LocksOk, AfterRail, AfterStore, Exec;
    var s, id := run[n], moves[n].id;
    var w := s.workers[id];
    assert run[n + 1] == Step(cfg, s, moves[n]);
    WorkerIsOk(s, id);
    match OpAt(w, moves[n].drawn)
    case None => RailRecords(cfg, run, moves, n, id, w, moves[n].answer);
    case Some(op) =>
      StoreRecords(cfg, run, moves, n, id, w, moves[n].drawn, op, Exec(cfg, s.db, op, moves[n].now).1,
                   LifeOf(run[n + 1].lives, w.call.key), op.SavePreparedOp? && run[n + 1].db != s.db);
  }

  lemma {:induction false} EveryWorkerRecords(cfg: Config, run: seq<World>, moves: seq<Move>, n: nat, id: nat)
    requires BitcoinSend.IsRun(cfg, run, moves) && n < |run| && id in run[n].workers
    ensures Recorded(cfg, run, moves, n, id, run[n].workers[id])
  {
    hide Inv, Step, Enabled, Told, WasRejected;
    assert run[n - 1 + 1] == Step(cfg, run[n - 1], moves[n - 1]);
    ReachableInv(cfg, run, moves, n - 1);
    if id in run[n - 1].workers {
      EveryWorkerRecords(cfg, run, moves, n - 1, id);
      if moves[n - 1].Act? && moves[n - 1].id == id {
        ActorRecords(cfg, run, moves, n - 1);
      } else {
        OthersStay(cfg, run[n - 1], moves[n - 1], id);
        StillRecorded(cfg, run, moves, n - 1, id, run[n - 1].workers[id]);
      }
    } else {
      Newcomer(cfg, run[n - 1], moves[n - 1], id);
    }
  }

  /**
   What a finished request was told about the tables: a success of its own was stored under its
   claim, with this status and body; a rejection and a doubt were recorded under its claim; and that
   its claim is lost was the store's own reply to one of its calls.
   */
  lemma AnswersAreRecorded(
      cfg: Config, run: seq<World>, moves: seq<Move>, n: nat, id: nat, outcome: BitcoinSend.Outcome)
    requires BitcoinSend.IsRun(cfg, run, moves) && n < |run| && id in run[n].workers
    requires run[n].workers[id].token.Some? && run[n].workers[id].pc == Finished(outcome)
    ensures Told(cfg, run, moves, n, id, outcome)
  {
    EveryWorkerRecords(cfg, run, moves, n, id);
  }
}
