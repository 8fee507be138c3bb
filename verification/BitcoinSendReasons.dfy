/**
 What a send request does, traced back to what the node said. Every statement here is about
 the answers in the moves of a run, not about how a worker reads them.
 */
module BitcoinSendReasons {
  import opened Json
  import opened BitcoinStore
  import opened BitcoinSend
  import opened BitcoinSendInvariant
  import opened BitcoinSendSteps
  import opened BitcoinSendTheorems
  import opened BitcoinSendLives

  // ------------------------------------------------------------ hearing

  /** At step `m` of the run the worker, a request for this key, hears this answer. */
  ghost predicate Hears(run: seq<World>, moves: seq<Move>, m: int, id: nat, key: string, answer: Answer) {
    && 0 <= m < |moves| && m < |run| && moves[m].Act? && moves[m].id == id && id in run[m].workers
    && run[m].workers[id].call.key == key && CallOf(run[m], moves[m]).None? && moves[m].answer == answer
  }

  /** And it hears it about the transaction it carries. */
  ghost predicate HearsOf(
      run: seq<World>, moves: seq<Move>, m: int, id: nat, key: string, p: PreparedBroadcast, answer: Answer)
  {
    && Hears(run, moves, m, id, key, answer)
    && CarriesChecked(run[m].workers[id].pc) && run[m].workers[id].pc.prepared == p
  }

  /** The node knows the transaction, or took it under its own txid. */
  ghost predicate HearsKnown(run: seq<World>, moves: seq<Move>, m: int, id: nat, key: string, p: PreparedBroadcast) {
    || HearsOf(run, moves, m, id, key, p, LookupKnown)
    || HearsOf(run, moves, m, id, key, p, SendReturns(p.expectedTxid))
  }

  ghost predicate Known(run: seq<World>, moves: seq<Move>, n: nat, id: nat, key: string, p: PreparedBroadcast) {
    exists m: nat :: m < n && HearsKnown(run, moves, m, id, key, p)
  }

  /** The mempool would not take it, and after that the node did not know it. */
  ghost predicate TurnedDown(run: seq<World>, moves: seq<Move>, n: nat, id: nat, key: string, p: PreparedBroadcast) {
    exists a: nat, b: nat :: a < b < n
      && HearsOf(run, moves, a, id, key, p, MempoolRejects) && HearsOf(run, moves, b, id, key, p, LookupUnknown)
  }

  /** The node did not know it, and after that the mempool would take it. */
  ghost predicate Allowed(run: seq<World>, moves: seq<Move>, n: nat, id: nat, key: string, p: PreparedBroadcast) {
    exists a: nat, b: nat :: a < b < n
      && HearsOf(run, moves, a, id, key, p, LookupUnknown) && HearsOf(run, moves, b, id, key, p, MempoolAllows)
  }

  /** The submission broke with this error, and after that the node did not know the transaction. */
  ghost predicate Lost(
      run: seq<World>, moves: seq<Move>, n: nat, id: nat, key: string, p: PreparedBroadcast, status: int, error: string)
  {
    exists a: nat, b: nat :: a < b < n
      && HearsOf(run, moves, a, id, key, p, SendBreaks(status, error))
      && HearsOf(run, moves, b, id, key, p, LookupUnknown)
  }

  /** The node answered the submission with the txid of another transaction. */
  ghost predicate Mistaken(run: seq<World>, moves: seq<Move>, n: nat, id: nat, key: string, p: PreparedBroadcast) {
    exists m: nat, txid :: m < n && txid != p.expectedTxid && HearsOf(run, moves, m, id, key, p, SendReturns(txid))
  }

  ghost predicate Doubtful(run: seq<World>, moves: seq<Move>, n: nat, id: nat, key: string, p: PreparedBroadcast) {
    Mistaken(run, moves, n, id, key, p) || exists status, error :: Lost(run, moves, n, id, key, p, status, error)
  }

  ghost predicate Heard(
      run: seq<World>, moves: seq<Move>, n: nat, id: nat, key: string, p: PreparedBroadcast, answer: Answer)
  {
    exists m: nat :: m < n && HearsOf(run, moves, m, id, key, p, answer)
  }

  ghost predicate HeardAtAll(run: seq<World>, moves: seq<Move>, n: nat, id: nat, key: string, answer: Answer) {
    exists m: nat :: m < n && Hears(run, moves, m, id, key, answer)
  }

  /** Broadcasting is switched on, and the request has confirmed it. */
  ghost predicate Cleared(run: seq<World>, moves: seq<Move>, n: nat, id: nat, key: string) {
    exists m: nat :: m < n && Hears(run, moves, m, id, key, Checked(true, true))
  }

  /** The wallet funded the draft and, after that, signed it. */
  ghost predicate Signed(run: seq<World>, moves: seq<Move>, n: nat, id: nat, key: string, d: Draft) {
    exists a: nat, b: nat, f, psbt :: a < b < n
      && Hears(run, moves, a, id, key, FundedWith(f))
      && Hears(run, moves, b, id, key, SignedWith(psbt, d.rawTx, d.expectedTxid))
      && d.wallet == f.wallet && d.outputs == f.outputs && d.feeSats == f.feeSats
      && d.totalOutputSats == f.totalOutputSats && d.psbt == if psbt == "" then f.psbt else psbt
  }

  // ------------------------------------------------------------ what a position rests on

  /** The transaction belongs to the worker's own life of the key. */
  ghost predicate OwnRecord(s: World, key: string, life: nat, p: PreparedBroadcast) {
    && p.recordId in s.db.records && p.recordId in s.origin
    && s.origin[p.recordId] == Life(key, life) && Matches(s.db.records[p.recordId], p)
  }

  /** The worker is about to answer with this transaction. */
  ghost predicate AnswersWith(
      run: seq<World>, moves: seq<Move>, n: nat, id: nat, call: Call, life: nat, statusCode: int, body: Json,
      p: PreparedBroadcast)
    requires n < |run|
  {
    statusCode == 200 && body == OkBody(BroadcastResult(p), call.requestId)
    && Known(run, moves, n, id, call.key, p) && OwnRecord(run[n], call.key, life, p)
  }

  /** What an outcome of a send request rests on. */
  ghost predicate EndRests(
      run: seq<World>, moves: seq<Move>, n: nat, id: nat, call: Call, life: nat, outcome: Outcome)
    requires n < |run|
  {
    var key := call.key;
    match outcome
    case Answered(c, body) => exists p :: AnswersWith(run, moves, n, id, call, life, c, body, p)
    case Failed(c, code) => FailsFor(run, moves, n, id, key, c, code)
  }

  const FAILURE_CODES :=
    {"MEMPOOL_REJECTED", "BROADCAST_TXID_MISMATCH", "BROADCAST_RESULT_UNKNOWN", "INVALID_TXID", "BROADCAST_DISABLED",
     "BROADCAST_CONFIRMATION_REQUIRED", "PSBT_NOT_FINAL", "INTERNAL_ERROR", "IDEMPOTENCY_CLAIM_LOST",
     "IDEMPOTENCY_KEY_REUSED", "IDEMPOTENCY_IN_PROGRESS", "PREPARED_BROADCAST_CORRUPT"}

  /** What each failure of a send request rests on; the last four codes are the store's refusals. */
  ghost predicate FailsFor(run: seq<World>, moves: seq<Move>, n: nat, id: nat, key: string, c: int, code: string) {
    && code in FAILURE_CODES
    && (code == "MEMPOOL_REJECTED" ==> c == 409 && exists p :: TurnedDown(run, moves, n, id, key, p))
    && (code == "BROADCAST_TXID_MISMATCH" ==> c == 502 && exists p :: Mistaken(run, moves, n, id, key, p))
    && (code == "BROADCAST_RESULT_UNKNOWN" ==>
          exists p, status, error :: Lost(run, moves, n, id, key, p, status, error)
                                     && c == if status < 500 then 503 else status)
    && (code == "INVALID_TXID" ==> c == 400 && exists p :: Heard(run, moves, n, id, key, p, SendRaises))
    && (code == "BROADCAST_DISABLED" ==>
          c == 403 && exists confirmed :: HeardAtAll(run, moves, n, id, key, Checked(false, confirmed)))
    && (code == "BROADCAST_CONFIRMATION_REQUIRED" ==>
          c == 400 && HeardAtAll(run, moves, n, id, key, Checked(true, false)))
    && (code == "PSBT_NOT_FINAL" ==> c == 409 && HeardAtAll(run, moves, n, id, key, SigningFails))
    && (code == "INTERNAL_ERROR" ==> c == 500)
    && (code == "INTERNAL_ERROR" ==>
          exists answer :: answer in {FundingFails, LookupBreaks, MempoolBreaks}
                           && HeardAtAll(run, moves, n, id, key, answer))
  }

  /** What a worker of the send route has heard, by where it stands. */
  ghost predicate Rests(run: seq<World>, moves: seq<Move>, n: nat, id: nat, w: Worker)
    requires n < |run|
  {
    var key := w.call.key;
    && (w.pc.Loading? || Preparing(w.pc) || Carries(w.pc) ==> Cleared(run, moves, n, id, key))
    && match w.pc
       case Signing(f) => exists m: nat :: m < n && Hears(run, moves, m, id, key, FundedWith(f))
       case Saving(_, d) => Signed(run, moves, n, id, key, d)
       case TestingMempool(p) => Heard(run, moves, n, id, key, p, LookupUnknown)
       case LookingUpRejected(p) => Heard(run, moves, n, id, key, p, MempoolRejects)
       case Rejecting(p) => TurnedDown(run, moves, n, id, key, p)
       case UnlockingRejected(p) => TurnedDown(run, moves, n, id, key, p)
       case Sending(p) => Allowed(run, moves, n, id, key, p)
       case LookingUpFailed(p, status, error) => Heard(run, moves, n, id, key, p, SendBreaks(status, error))
       case MarkingUnknown(p, error, outcome) =>
         || (Mistaken(run, moves, n, id, key, p) && outcome == Failed(502, "BROADCAST_TXID_MISMATCH"))
         || (exists status :: Lost(run, moves, n, id, key, p, status, error)
               && outcome == Failed(if status < 500 then 503 else status, "BROADCAST_RESULT_UNKNOWN"))
       case MarkingBroadcast(p) => Known(run, moves, n, id, key, p)
       case Unlocking(_, outcome) => EndRests(run, moves, n, id, w.call, w.life, outcome)
       case Responding(c, body) =>
         SendRoute(w.call.scope) ==> exists p :: AnswersWith(run, moves, n, id, w.call, w.life, c, body, p)
       case Finished(outcome) =>
         w.token.Some? && SendRoute(w.call.scope) ==> EndRests(run, moves, n, id, w.call, w.life, outcome)
       case _ => true
  }

  // ------------------------------------------------------------ words stay said

  lemma LaterStill(run: seq<World>, moves: seq<Move>, n: nat, n': nat, id: nat, key: string, p: PreparedBroadcast)
    requires n <= n'
    ensures Known(run, moves, n, id, key, p) ==> Known(run, moves, n', id, key, p)
    ensures TurnedDown(run, moves, n, id, key, p) ==> TurnedDown(run, moves, n', id, key, p)
    ensures Allowed(run, moves, n, id, key, p) ==> Allowed(run, moves, n', id, key, p)
    ensures Mistaken(run, moves, n, id, key, p) ==> Mistaken(run, moves, n', id, key, p)
    ensures forall answer :: Heard(run, moves, n, id, key, p, answer) ==> Heard(run, moves, n', id, key, p, answer)
    ensures forall status, error ::
      Lost(run, moves, n, id, key, p, status, error) ==> Lost(run, moves, n', id, key, p, status, error)
  {
    hide HearsOf;
  }

  /** Records and their origins only grow. */
  ghost predicate Extends(s: World, s': World) {
    && (forall r :: r in s.db.records ==> r in s'.db.records && SameTx(s.db.records[r], s'.db.records[r]))
    && (forall r :: r in s.origin ==> r in s'.origin && s'.origin[r] == s.origin[r])
  }

  lemma AnswersStill(
      run: seq<World>, moves: seq<Move>, n: nat, id: nat, call: Call, life: nat, c: int, body: Json,
      p: PreparedBroadcast)
    requires n + 1 < |run| && Extends(run[n], run[n + 1]) && AnswersWith(run, moves, n, id, call, life, c, body, p)
    ensures AnswersWith(run, moves, n + 1, id, call, life, c, body, p)
  {
    hide Known;
    LaterStill(run, moves, n, n + 1, id, call.key, p);
  }

  lemma EndRestsStill(run: seq<World>, moves: seq<Move>, n: nat, id: nat, call: Call, life: nat, outcome: Outcome)
    requires n + 1 < |run| && Extends(run[n], run[n + 1]) && EndRests(run, moves, n, id, call, life, outcome)
    ensures EndRests(run, moves, n + 1, id, call, life, outcome)
  {
    hide AnswersWith, TurnedDown, Mistaken, Lost, Extends;
    if outcome.Answered? {
      var p :| AnswersWith(run, moves, n, id, call, life, outcome.statusCode, outcome.body, p);
      AnswersStill(run, moves, n, id, call, life, outcome.statusCode, outcome.body, p);
    } else {
      FailureStill(run, moves, n, id, call, life, outcome);
    }
  }

  lemma FailureStill(run: seq<World>, moves: seq<Move>, n: nat, id: nat, call: Call, life: nat, outcome: Outcome)
    requires n + 1 < |run| && EndRests(run, moves, n, id, call, life, outcome) && outcome.Failed?
    ensures EndRests(run, moves, n + 1, id, call, life, outcome)
  {
    hide TurnedDown, Mistaken, Lost, Heard, HeardAtAll;
    var key, code := call.key, outcome.code;
    HeardStill(run, moves, n, id, key);
    if code == "MEMPOOL_REJECTED" {
      var p :| TurnedDown(run, moves, n, id, key, p);
      LaterStill(run, moves, n, n + 1, id, key, p);
    } else if code == "BROADCAST_TXID_MISMATCH" {
      var p :| Mistaken(run, moves, n, id, key, p);
      LaterStill(run, moves, n, n + 1, id, key, p);
    } else if code == "INVALID_TXID" {
      var p :| Heard(run, moves, n, id, key, p, SendRaises);
      LaterStill(run, moves, n, n + 1, id, key, p);
    } else if code == "BROADCAST_RESULT_UNKNOWN" {
      var p, status, error :| Lost(run, moves, n, id, key, p, status, error)
        && outcome.statusCode == if status < 500 then 503 else status;
      LaterStill(run, moves, n, n + 1, id, key, p);
    }
  }

  lemma HeardStill(run: seq<World>, moves: seq<Move>, n: nat, id: nat, key: string)
    ensures forall answer ::
      HeardAtAll(run, moves, n, id, key, answer) ==> HeardAtAll(run, moves, n + 1, id, key, answer)
  {
    hide Hears;
  }

  // failures, one by one

  lemma InternalFails(run: seq<World>, moves: seq<Move>, n: nat, id: nat, key: string, answer: Answer)
    requires HeardAtAll(run, moves, n, id, key, answer) && answer in {FundingFails, LookupBreaks, MempoolBreaks}
    ensures FailsFor(run, moves, n, id, key, 500, "INTERNAL_ERROR")
  {
    hide HeardAtAll;
  }

  lemma InvalidTxidFails(run: seq<World>, moves: seq<Move>, n: nat, id: nat, key: string, p: PreparedBroadcast)
    requires Heard(run, moves, n, id, key, p, SendRaises)
    ensures FailsFor(run, moves, n, id, key, 400, "INVALID_TXID")
  {
    hide Heard;
  }

  lemma GateFails(run: seq<World>, moves: seq<Move>, n: nat, id: nat, key: string, answer: Answer)
    requires HeardAtAll(run, moves, n, id, key, answer)
    ensures answer.Checked? && !answer.broadcastAllowed ==>
      FailsFor(run, moves, n, id, key, 403, "BROADCAST_DISABLED")
    ensures answer.Checked? && answer.broadcastAllowed && !answer.confirmed ==>
      FailsFor(run, moves, n, id, key, 400, "BROADCAST_CONFIRMATION_REQUIRED")
    ensures answer.SigningFails? ==> FailsFor(run, moves, n, id, key, 409, "PSBT_NOT_FINAL")
  {
    hide HeardAtAll;
  }

  lemma RefusalFails(run: seq<World>, moves: seq<Move>, n: nat, id: nat, key: string, why: Refusal)
    ensures FailsFor(run, moves, n, id, key, RefusalOutcome(why).statusCode, RefusalOutcome(why).code)
  {
  }

  lemma RejectionFails(run: seq<World>, moves: seq<Move>, n: nat, id: nat, key: string, p: PreparedBroadcast)
    requires TurnedDown(run, moves, n, id, key, p)
    ensures FailsFor(run, moves, n, id, key, 409, "MEMPOOL_REJECTED")
  {
    hide TurnedDown;
  }

  lemma MistakeFails(run: seq<World>, moves: seq<Move>, n: nat, id: nat, key: string, p: PreparedBroadcast)
    requires Mistaken(run, moves, n, id, key, p)
    ensures FailsFor(run, moves, n, id, key, 502, "BROADCAST_TXID_MISMATCH")
  {
    hide Mistaken;
  }

  lemma LossFails(
      run: seq<World>, moves: seq<Move>, n: nat, id: nat, key: string, p: PreparedBroadcast, status: int, error: string)
    requires Lost(run, moves, n, id, key, p, status, error)
    ensures FailsFor(run, moves, n, id, key, if status < 500 then 503 else status, "BROADCAST_RESULT_UNKNOWN")
  {
    hide Lost;
  }

  lemma RestsStill(run: seq<World>, moves: seq<Move>, n: nat, id: nat, w: Worker)
    requires n + 1 < |run| && Extends(run[n], run[n + 1]) && Rests(run, moves, n, id, w)
    ensures Rests(run, moves, n + 1, id, w)
  {
    hide Hears, Known, TurnedDown, Allowed, Mistaken, Lost, Heard, AnswersWith, EndRests, Extends;
    if Carries(w.pc) && !w.pc.Heartbeating? {
      LaterStill(run, moves, n, n + 1, id, w.call.key, w.pc.prepared);
    } else if w.pc.Unlocking? {
      EndRestsStill(run, moves, n, id, w.call, w.life, w.pc.outcome);
    } else if w.pc.Finished? && w.token.Some? && SendRoute(w.call.scope) {
      EndRestsStill(run, moves, n, id, w.call, w.life, w.pc.outcome);
    } else if w.pc.Responding? && SendRoute(w.call.scope) {
      var p :| AnswersWith(run, moves, n, id, w.call, w.life, w.pc.statusCode, w.pc.body, p);
      AnswersStill(run, moves, n, id, w.call, w.life, w.pc.statusCode, w.pc.body, p);
    }
  }

  // ------------------------------------------------------------ one step of the worker

  /** An answer it hears about the transaction it carries. */
  lemma LookingUpRests(run: seq<World>, moves: seq<Move>, n: nat, id: nat, w: Worker, answer: Answer)
    requires n + 1 < |run| && Rests(run, moves, n, id, w) && Fits(w.pc, answer)
    requires w.pc.LookingUp? || w.pc.LookingUpRejected? || w.pc.LookingUpFailed?
    requires HearsOf(run, moves, n, id, w.call.key, w.pc.prepared, answer)
    requires Hears(run, moves, n, id, w.call.key, answer)
    ensures Rests(run, moves, n + 1, id, AfterRail(w, answer))
  {
    hide Hears, HearsOf, AnswersWith, FailsFor;
    assert HeardAtAll(run, moves, n + 1, id, w.call.key, answer);
    if answer.LookupBreaks? { InternalFails(run, moves, n + 1, id, w.call.key, answer); }
    assert answer.LookupKnown? ==> HearsKnown(run, moves, n, id, w.call.key, w.pc.prepared);
    if w.pc.LookingUpFailed? && answer.LookupUnknown? {
      var a: nat :| a < n
        && HearsOf(run, moves, a, id, w.call.key, w.pc.prepared, SendBreaks(w.pc.rpcStatus, w.pc.error));
      assert Lost(run, moves, n + 1, id, w.call.key, w.pc.prepared, w.pc.rpcStatus, w.pc.error);
    }
  }

  lemma TestingRests(run: seq<World>, moves: seq<Move>, n: nat, id: nat, w: Worker, answer: Answer)
    requires n + 1 < |run| && Rests(run, moves, n, id, w) && Fits(w.pc, answer) && w.pc.TestingMempool?
    requires HearsOf(run, moves, n, id, w.call.key, w.pc.prepared, answer)
    requires Hears(run, moves, n, id, w.call.key, answer)
    ensures Rests(run, moves, n + 1, id, AfterRail(w, answer))
  {
    hide Hears, HearsOf, AnswersWith, FailsFor;
    assert HeardAtAll(run, moves, n + 1, id, w.call.key, answer);
    if answer.MempoolBreaks? { InternalFails(run, moves, n + 1, id, w.call.key, answer); }
  }

  lemma SubmissionRests(
      run: seq<World>, moves: seq<Move>, n: nat, id: nat, w: Worker, answer: Answer)
    requires n + 1 < |run| && Rests(run, moves, n, id, w) && Fits(w.pc, answer)
    requires w.pc.Sending? && HearsOf(run, moves, n, id, w.call.key, w.pc.prepared, answer)
    ensures Rests(run, moves, n + 1, id, AfterRail(w, answer))
  {
    hide Hears, HearsOf, AnswersWith, FailsFor;
    assert Heard(run, moves, n + 1, id, w.call.key, w.pc.prepared, answer);
    if answer.SendRaises? { InvalidTxidFails(run, moves, n + 1, id, w.call.key, w.pc.prepared); }
    if answer.SendReturns? && answer.txid == w.pc.prepared.expectedTxid {
      assert HearsKnown(run, moves, n, id, w.call.key, w.pc.prepared);
    }
  }

  lemma UnlockingRests(run: seq<World>, moves: seq<Move>, n: nat, id: nat, w: Worker, answer: Answer)
    requires n + 1 < |run| && Extends(run[n], run[n + 1]) && Rests(run, moves, n, id, w) && Fits(w.pc, answer)
    requires w.pc.Unlocking? || w.pc.UnlockingRejected?
    ensures Rests(run, moves, n + 1, id, AfterRail(w, answer))
  {
    hide Hears, HearsOf, Extends, AnswersWith, FailsFor, TurnedDown;
    if w.pc.UnlockingRejected? {
      LaterStill(run, moves, n, n + 1, id, w.call.key, w.pc.prepared);
      RejectionFails(run, moves, n + 1, id, w.call.key, w.pc.prepared);
    } else {
      EndRestsStill(run, moves, n, id, w.call, w.life, w.pc.outcome);
    }
  }

  lemma PreparingRests(run: seq<World>, moves: seq<Move>, n: nat, id: nat, w: Worker, answer: Answer)
    requires n + 1 < |run| && Rests(run, moves, n, id, w) && Fits(w.pc, answer) && LocalOk(w)
    requires Hears(run, moves, n, id, w.call.key, answer)
    requires w.pc.Checking? || w.pc.Funding? || w.pc.Signing? || w.pc.Working?
    ensures Rests(run, moves, n + 1, id, AfterRail(w, answer))
  {
    hide Hears, LocksOk, AnswersWith, FailsFor;
    assert HeardAtAll(run, moves, n + 1, id, w.call.key, answer);
    GateFails(run, moves, n + 1, id, w.call.key, answer);
    if answer.FundingFails? { InternalFails(run, moves, n + 1, id, w.call.key, answer); }
  }

  lemma RailRests(run: seq<World>, moves: seq<Move>, n: nat, id: nat, w: Worker, answer: Answer)
    requires n + 1 < |run| && Extends(run[n], run[n + 1]) && Rests(run, moves, n, id, w)
    requires Fits(w.pc, answer) && LocalOk(w) && id in run[n].workers && run[n].workers[id] == w
    requires Hears(run, moves, n, id, w.call.key, answer)
    ensures Rests(run, moves, n + 1, id, AfterRail(w, answer))
  {
    hide Rests, AfterRail, LocalOk, Extends;
    if w.pc.Unlocking? || w.pc.UnlockingRejected? {
      UnlockingRests(run, moves, n, id, w, answer);
    } else if w.pc.Sending? {
      SubmissionRests(run, moves, n, id, w, answer);
    } else if w.pc.TestingMempool? {
      TestingRests(run, moves, n, id, w, answer);
    } else if CarriesChecked(w.pc) {
      LookingUpRests(run, moves, n, id, w, answer);
    } else {
      PreparingRests(run, moves, n, id, w, answer);
    }
  }

  /** A reply of the store: nothing is heard, so what it rests on is what it rested on. */
  lemma StoreRests(
      run: seq<World>, moves: seq<Move>, n: nat, id: nat, w: Worker, drawn: string, reply: Reply, life: nat,
      wrote: bool)
    requires n < |run| && Rests(run, moves, n, id, w) && LocalOk(w) && OpAt(w, drawn).Some?
    requires w.pc.MarkingBroadcast? ==> OwnRecord(run[n], w.call.key, w.life, w.pc.prepared)
    requires w.pc.Claiming? ==> reply.Claim? || reply.Replay? || reply.Refused?
    ensures Rests(run, moves, n, id, AfterStore(w, reply, life, wrote))
  {
    hide Hears, LocksOk, TurnedDown, Known, Mistaken, Lost, TagReplay, Rests;
    if CarriesChecked(w.pc) || w.pc.Responding? {
      StoreRestsAtTheEnd(run, moves, n, id, w, drawn, reply, life, wrote);
    } else {
      StoreRestsBefore(run, moves, n, id, w, drawn, reply, life, wrote);
    }
  }

  lemma StoreRestsBefore(
      run: seq<World>, moves: seq<Move>, n: nat, id: nat, w: Worker, drawn: string, reply: Reply, life: nat,
      wrote: bool)
    requires n < |run| && Rests(run, moves, n, id, w) && LocalOk(w) && OpAt(w, drawn).Some?
    requires !CarriesChecked(w.pc) && !w.pc.Responding?
    requires w.pc.Claiming? ==> reply.Claim? || reply.Replay? || reply.Refused?
    ensures Rests(run, moves, n, id, AfterStore(w, reply, life, wrote))
  {
    hide LocksOk, Rests, AfterStore;
    if w.pc.Claiming? {
      ClaimRests(run, moves, n, id, w, reply, life, wrote);
    } else if w.pc.Heartbeating? {
      BeatRests(run, moves, n, id, w, reply, life, wrote);
    } else {
      LoadRests(run, moves, n, id, w, reply, life, wrote);
    }
  }

  lemma ClaimRests(
      run: seq<World>, moves: seq<Move>, n: nat, id: nat, w: Worker, reply: Reply, life: nat, wrote: bool)
    requires n < |run| && w.pc.Claiming? && w.token.None?
    requires reply.Claim? || reply.Replay? || reply.Refused?
    ensures Rests(run, moves, n, id, AfterStore(w, reply, life, wrote))
  {
    hide FailsFor, TagReplay, AnswersWith, RefusalOutcome;
  }

  lemma BeatRests(
      run: seq<World>, moves: seq<Move>, n: nat, id: nat, w: Worker, reply: Reply, life: nat, wrote: bool)
    requires n < |run| && Rests(run, moves, n, id, w) && w.pc.Heartbeating?
    ensures Rests(run, moves, n, id, AfterStore(w, reply, life, wrote))
  {
    hide Hears, FailsFor;
    RefusalFails(run, moves, n, id, w.call.key, ClaimLost);
  }

  lemma LoadRests(
      run: seq<World>, moves: seq<Move>, n: nat, id: nat, w: Worker, reply: Reply, life: nat, wrote: bool)
    requires n < |run| && Rests(run, moves, n, id, w) && (w.pc.Loading? || w.pc.Saving?)
    ensures Rests(run, moves, n, id, AfterStore(w, reply, life, wrote))
  {
    hide Hears, FailsFor, RefusalOutcome;
    if reply.Refused? {
      RefusalFails(run, moves, n, id, w.call.key, reply.why);
      assert RefusalOutcome(reply.why).Failed? by { RefusalIsFailure(reply.why); }
    }
  }

  lemma RefusalIsFailure(why: Refusal)
    ensures RefusalOutcome(why).Failed?
  {
  }

  lemma StoreRestsAtTheEnd(
      run: seq<World>, moves: seq<Move>, n: nat, id: nat, w: Worker, drawn: string, reply: Reply, life: nat,
      wrote: bool)
    requires n < |run| && Rests(run, moves, n, id, w) && LocalOk(w) && OpAt(w, drawn).Some?
    requires CarriesChecked(w.pc) || w.pc.Responding?
    requires w.pc.MarkingBroadcast? ==> OwnRecord(run[n], w.call.key, w.life, w.pc.prepared)
    ensures Rests(run, moves, n, id, AfterStore(w, reply, life, wrote))
  {
    hide Rests, LocalOk, OwnRecord, AfterStore;
    if w.pc.MarkingBroadcast? {
      BroadcastRests(run, moves, n, id, w, reply, life, wrote);
    } else if w.pc.Responding? {
      ResponseRests(run, moves, n, id, w, reply, life, wrote);
    } else {
      FailureRests(run, moves, n, id, w, reply, life, wrote);
    }
  }

  lemma FailureRests(
      run: seq<World>, moves: seq<Move>, n: nat, id: nat, w: Worker, reply: Reply, life: nat, wrote: bool)
    requires n < |run| && Rests(run, moves, n, id, w) && (w.pc.Rejecting? || w.pc.MarkingUnknown?)
    ensures Rests(run, moves, n, id, AfterStore(w, reply, life, wrote))
  {
    hide Hears, TurnedDown, Mistaken, Lost, FailsFor, RefusalOutcome;
    RefusalFails(run, moves, n, id, w.call.key, ClaimLost);
    assert RefusalOutcome(ClaimLost) == CLAIM_LOST by { LostIsRefused(); }
    if w.pc.MarkingUnknown? { DoubtRests(run, moves, n, id, w); }
  }

  lemma LostIsRefused()
    ensures RefusalOutcome(ClaimLost) == CLAIM_LOST
  {
  }

  lemma DoubtRests(run: seq<World>, moves: seq<Move>, n: nat, id: nat, w: Worker)
    requires n < |run| && Rests(run, moves, n, id, w) && w.pc.MarkingUnknown?
    ensures w.pc.outcome.Failed?
    ensures FailsFor(run, moves, n, id, w.call.key, w.pc.outcome.statusCode, w.pc.outcome.code)
  {
    hide Hears, Mistaken, Lost, FailsFor;
    var key, p := w.call.key, w.pc.prepared;
    if Mistaken(run, moves, n, id, key, p) && w.pc.outcome == Failed(502, "BROADCAST_TXID_MISMATCH") {
      MistakeFails(run, moves, n, id, key, p);
    } else {
      var status :| Lost(run, moves, n, id, key, p, status, w.pc.error)
        && w.pc.outcome == Failed(if status < 500 then 503 else status, "BROADCAST_RESULT_UNKNOWN");
      LossFails(run, moves, n, id, key, p, status, w.pc.error);
    }
  }

  lemma BroadcastRests(
      run: seq<World>, moves: seq<Move>, n: nat, id: nat, w: Worker, reply: Reply, life: nat, wrote: bool)
    requires n < |run| && Rests(run, moves, n, id, w) && w.pc.MarkingBroadcast?
    requires OwnRecord(run[n], w.call.key, w.life, w.pc.prepared)
    ensures Rests(run, moves, n, id, AfterStore(w, reply, life, wrote))
  {
    hide Hears, Known, OwnRecord, OkBody, BroadcastResult, FailsFor;
    RefusalFails(run, moves, n, id, w.call.key, ClaimLost);
    var p := w.pc.prepared;
    assert AnswersWith(run, moves, n, id, w.call, w.life, 200, OkBody(BroadcastResult(p), w.call.requestId), p);
  }

  lemma ResponseRests(
      run: seq<World>, moves: seq<Move>, n: nat, id: nat, w: Worker, reply: Reply, life: nat, wrote: bool)
    requires n < |run| && Rests(run, moves, n, id, w) && w.pc.Responding?
    ensures Rests(run, moves, n, id, AfterStore(w, reply, life, wrote))
  {
    hide Hears, AnswersWith, FailsFor;
    RefusalFails(run, moves, n, id, w.call.key, ClaimLost);
  }

  // ------------------------------------------------------------ workers

  lemma StepExtends(cfg: Config, s: World, move: Move)
    requires Inv(s) && Enabled(s, move)
    ensures Extends(s, Step(cfg, s, move))
  {
    hide Inv, AfterRail, AfterStore, Exec, Fits;
    forall r | r in s.db.records
      ensures r in Step(cfg, s, move).db.records && SameTx(s.db.records[r], Step(cfg, s, move).db.records[r])
    {
      StepKeepsRecords(cfg, s, move, r);
    }
    if move.Act? && OpAt(s.workers[move.id], move.drawn).Some? {
      OriginsOk(s);
      OriginsExtend(cfg, s, move.id, OpAt(s.workers[move.id], move.drawn).value, move.now);
    }
  }

  lemma ActorRests(cfg: Config, run: seq<World>, moves: seq<Move>, n: nat)
    requires BitcoinSend.IsRun(cfg, run, moves) && n < |moves| && moves[n].Act? && Inv(run[n])
    requires Rests(run, moves, n, moves[n].id, run[n].workers[moves[n].id])
    ensures Rests(run, moves, n + 1, moves[n].id, run[n + 1].workers[moves[n].id])
  {
    hide Inv, Rests, Fits, TokenLink, LocalOk, Extends, AfterRail, AfterStore, Exec;
    var s, id := run[n], moves[n].id;
    var w := s.workers[id];
    assert run[n + 1] == Step(cfg, s, moves[n]);
    StepExtends(cfg, s, moves[n]);
    WorkerIsOk(s, id);
    match OpAt(w, moves[n].drawn)
    case None => RailRests(run, moves, n, id, w, moves[n].answer);
    case Some(op) =>
      ClaimsAreAnswered(cfg, s.db, op, moves[n].now);
      var reply, life := Exec(cfg, s.db, op, moves[n].now).1, LifeOf(run[n + 1].lives, w.call.key);
      var wrote := op.SavePreparedOp? && run[n + 1].db != s.db;
      StoreRests(run, moves, n, id, w, moves[n].drawn, reply, life, wrote);
      RestsStill(run, moves, n, id, AfterStore(w, reply, life, wrote));
  }

  lemma ClaimsAreAnswered(cfg: Config, db: Db, op: Op, now: int)
    ensures var reply := Exec(cfg, db, op, now).1;
      op.ClaimOp? ==> reply.Claim? || reply.Replay? || reply.Refused?
  {
  }

  lemma {:induction false} WorkerRests(cfg: Config, run: seq<World>, moves: seq<Move>, n: nat, id: nat)
    requires BitcoinSend.IsRun(cfg, run, moves) && n < |run| && id in run[n].workers
    ensures Rests(run, moves, n, id, run[n].workers[id])
  {
    hide Inv, Rests, Step, Enabled, Extends;
    assert run[n - 1 + 1] == Step(cfg, run[n - 1], moves[n - 1]);
    ReachableInv(cfg, run, moves, n - 1);
    if id in run[n - 1].workers {
      WorkerRests(cfg, run, moves, n - 1, id);
      if moves[n - 1].Act? && moves[n - 1].id == id {
        ActorRests(cfg, run, moves, n - 1);
      } else {
        StepExtends(cfg, run[n - 1], moves[n - 1]);
        OthersStay(cfg, run[n - 1], moves[n - 1], id);
        RestsStill(run, moves, n - 1, id, run[n - 1].workers[id]);
        CrashRests(run, moves, n, id, run[n - 1].workers[id]);
      }
    } else {
      Newcomer(cfg, run[n - 1], moves[n - 1], id);
      NewcomerRests(run, moves, n, id, run[n].workers[id]);
    }
  }

  lemma NewcomerRests(run: seq<World>, moves: seq<Move>, n: nat, id: nat, w: Worker)
    requires n < |run| && w.pc.Claiming?
    ensures Rests(run, moves, n, id, w)
  {
  }

  lemma CrashRests(run: seq<World>, moves: seq<Move>, n: nat, id: nat, w: Worker)
    requires n < |run|
    ensures Rests(run, moves, n, id, w.(pc := Crashed))
  {
  }
}
