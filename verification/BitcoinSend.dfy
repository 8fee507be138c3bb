/**
 The Bitcoin adapter's write requests as a labelled transition system. A worker runs
 `_json_post` around one handler; between any two of its steps other workers may run,
 rows may be pruned, and the worker may crash or stall for ever. Each store call is one
 atomic step. The node's answers, the clock and the drawn identifiers are the adversary's.
 */
module BitcoinSend {
  import opened Prelude
  import opened Json
  import opened BitcoinStore
  import opened BitcoinStoreProofs

  /** One HTTP request that carries an idempotency key. */
  datatype Call = Call(key: string, scope: string, hash: string, requestId: string)

  const SEND_SUFFIX := "/transactions/send"

  /** Does the route lead to `create_sign_and_send`? */
  predicate SendRoute(scope: string) {
    |scope| >= |SEND_SUFFIX| && scope[|scope| - |SEND_SUFFIX|..] == SEND_SUFFIX
  }

  datatype Funded = Funded(wallet: string, outputs: Json, psbt: string, feeSats: int, totalOutputSats: int)

  datatype Outcome = Answered(statusCode: int, body: Json) | Failed(statusCode: int, code: string)

  /** Where a worker stands: the step it takes next. */
  datatype Pc =
    | Claiming
    | Checking
    | Loading
    | Funding
    | Signing(funded: Funded)
    | Saving(funded: Funded, draft: Draft)
    | Unlocking(psbt: string, outcome: Outcome)
    | Heartbeating(prepared: PreparedBroadcast)
    | LookingUp(prepared: PreparedBroadcast)
    | TestingMempool(prepared: PreparedBroadcast)
    | LookingUpRejected(prepared: PreparedBroadcast)
    | Rejecting(prepared: PreparedBroadcast)
    | UnlockingRejected(prepared: PreparedBroadcast)
    | Sending(prepared: PreparedBroadcast)
    | LookingUpFailed(prepared: PreparedBroadcast, rpcStatus: int, error: string)
    | MarkingUnknown(prepared: PreparedBroadcast, error: string, outcome: Outcome)
    | MarkingBroadcast(prepared: PreparedBroadcast)
    | Working
    | Responding(statusCode: int, body: Json)
    | Finished(outcome: Outcome)
    | Crashed

  /** What the node or the handler answers. */
  datatype Answer =
    | Quiet
    | Checked(broadcastAllowed: bool, confirmed: bool)
    | FundingFails | FundedWith(funded: Funded)
    | SigningFails | SignedWith(psbt: string, rawTx: string, txid: string)
    | LookupKnown | LookupUnknown | LookupBreaks
    | MempoolAllows | MempoolRejects | MempoolBreaks
    | SendReturns(txid: string) | SendBreaks(rpcStatus: int, error: string) | SendRaises
    | HandlerReturns(statusCode: int, payload: Json) | HandlerFails

  /**
   `life` numbers the key's row the claim was made in; `fundedPsbt`, `persisted`, `rejectedPsbt`
   and `released` record what the call did about input locks.
   */
  datatype Worker = Worker(
    call: Call, token: Option<string>, life: nat, pc: Pc,
    fundedPsbt: Option<string>, persisted: bool, rejectedPsbt: Option<string>, released: seq<string>)

  datatype Life = Life(key: string, number: nat)

  datatype Event =
    | Persisted(recordId: nat, life: Life, rawTx: string)
    | Sent(worker: nat, recordId: nat, life: Life, rawTx: string)

  /** `lives` counts the rows each key has had, `origin` the life each persisted record belongs to. */
  datatype World = World(
    db: Db, workers: map<nat, Worker>, issued: set<string>,
    lives: map<string, nat>, origin: map<nat, Life>, history: seq<Event>)

  datatype Move =
    | Arrive(id: nat, call: Call)
    | Act(id: nat, now: int, drawn: string, answer: Answer)
    | Crash(id: nat)
    | Prune(now: int)
    | Record(record: TxRecord)

  function Initial(): World {
    World(Db(map[], map[], 0), map[], {}, map[], map[], [])
  }

  function LifeOf(lives: map<string, nat>, key: string): nat {
    if key in lives then lives[key] else 0
  }

  // ------------------------------------------------------------ responses

  function OkBody(payload: Json, requestId: string): Json {
    Obj([Field("success", Bool(true)), Field("data", payload), Field("requestId", Str(requestId))])
  }

  function BroadcastResult(p: PreparedBroadcast): Json {
    Obj([Field("recordId", Int(p.recordId)), Field("wallet", Str(p.wallet)), Field("txid", Str(p.expectedTxid)),
         Field("feeSats", Int(p.feeSats)), Field("totalOutputSats", Int(p.totalOutputSats)),
         Field("mempoolAccepted", Bool(true))])
  }

  /** `body["data"]["txid"]` */
  function TxidIn(body: Json): Json {
    if !body.Obj? then Null
    else
      var data := Get(body.fields, "data");
      if data.Obj? then Get(data.fields, "txid") else Null
  }

  function SetField(fields: seq<Field>, key: string, value: Json): seq<Field> {
    if fields == [] then [Field(key, value)]
    else if fields[0].key == key then [Field(key, value)] + fields[1..]
    else [fields[0]] + SetField(fields[1..], key, value)
  }

  /** A replayed body carries the new request's id and says that it is a replay. */
  function TagReplay(body: Json, requestId: string): Json {
    match body
    case Obj(fields) => Obj(SetField(SetField(fields, "requestId", Str(requestId)), "idempotentReplay", Bool(true)))
    case _ => body
  }

  // ------------------------------------------------------------ one worker

  predicate LowerHex(c: char) {
    '0' <= c <= '9' || 'a' <= c <= 'f'
  }

  /** What `validate_txid` lets through (it lower-cases). */
  predicate ValidTxid(txid: string) {
    |txid| == 64 && forall i :: 0 <= i < |txid| ==> LowerHex(txid[i])
  }

  /** The store call the worker makes next, if its next step is one. */
  function OpAt(w: Worker, drawn: string): Option<Op> {
    var key := w.call.key;
    var token := if w.token.Some? then w.token.value else "";
    match w.pc
    case Claiming => Some(ClaimOp(key, w.call.scope, w.call.hash, drawn))
    case Loading => Some(LoadPreparedOp(key, w.call.hash))
    case Saving(_, draft) => Some(SavePreparedOp(key, token, w.call.hash, draft))
    case Heartbeating(_) => Some(HeartbeatOp(key, token))
    case Rejecting(_) =>
      Some(MarkPreparedFailedOp(key, token, 409, "MEMPOOL_REJECTED", "Bitcoin Core rejected the prepared transaction."))
    case MarkingUnknown(p, error, _) => Some(MarkUnknownOp(key, token, p.expectedTxid, error))
    case MarkingBroadcast(p) => Some(MarkBroadcastOp(key, token, p.expectedTxid))
    case Responding(c, body) => Some(StoreResponseOp(key, w.call.scope, w.call.hash, token, c, body))
    case _ => None
  }

  const CLAIM_LOST := Failed(409, "IDEMPOTENCY_CLAIM_LOST")

  function RefusalOutcome(why: Refusal): Outcome {
    match why
    case KeyReused => Failed(409, "IDEMPOTENCY_KEY_REUSED")
    case InProgress => Failed(409, "IDEMPOTENCY_IN_PROGRESS")
    case ClaimLost => CLAIM_LOST
    case PreparedCorrupt => Failed(500, "PREPARED_BROADCAST_CORRUPT")
  }

  /** The worker once the store has replied. `life` is the key's life now, `wrote` says a record was inserted. */
  function AfterStore(w: Worker, reply: Reply, life: nat, wrote: bool): (w': Worker)
    ensures w'.call == w.call && (!w.pc.Claiming? ==> w'.token == w.token && w'.life == w.life)
  {
    match w.pc
    case Claiming =>
      (match reply
       case Claim(t, _, _) =>
         w.(token := Some(t), life := life, pc := if SendRoute(w.call.scope) then Checking else Working)
       case Replay(c, body) => w.(pc := Finished(Answered(c, TagReplay(body, w.call.requestId))))
       case Refused(why) => w.(pc := Finished(RefusalOutcome(why)))
       case _ => w)
    case Loading =>
      (match reply
       case Loaded(p) => w.(pc := Heartbeating(p))
       case Refused(why) => w.(pc := Finished(RefusalOutcome(why)))
       case _ => w.(pc := Funding))
    case Saving(f, _) =>
      (match reply
       case Loaded(p) => w.(pc := Heartbeating(p), persisted := wrote)
       case Refused(why) => w.(pc := Unlocking(f.psbt, RefusalOutcome(why)))
       case _ => w)
    case Heartbeating(p) => w.(pc := if reply == Beat(true) then LookingUp(p) else Finished(CLAIM_LOST))
    case Rejecting(p) =>
      if reply == Stored then w.(pc := UnlockingRejected(p), rejectedPsbt := Some(p.psbt))
      else w.(pc := Finished(CLAIM_LOST))
    case MarkingUnknown(_, _, outcome) => w.(pc := Finished(if reply == Stored then outcome else CLAIM_LOST))
    case MarkingBroadcast(p) =>
      w.(pc := if reply == Stored then Responding(200, OkBody(BroadcastResult(p), w.call.requestId))
               else Finished(CLAIM_LOST))
    case Responding(c, body) => w.(pc := Finished(if reply == Stored then Answered(c, body) else CLAIM_LOST))
    case _ => w
  }

  /** Can this answer come back at this point? Signed transactions and txids have been validated. */
  predicate Fits(pc: Pc, answer: Answer) {
    match pc
    case Checking => answer.Checked?
    case Funding => answer.FundingFails? || (answer.FundedWith? && answer.funded.psbt != "")
    case Signing(_) => answer.SigningFails? || (answer.SignedWith? && answer.rawTx != "" && ValidTxid(answer.txid))
    case LookingUp(_) => answer.LookupKnown? || answer.LookupUnknown? || answer.LookupBreaks?
    case LookingUpRejected(_) => answer.LookupKnown? || answer.LookupUnknown? || answer.LookupBreaks?
    case LookingUpFailed(_, _, _) => answer.LookupKnown? || answer.LookupUnknown? || answer.LookupBreaks?
    case TestingMempool(_) => answer.MempoolAllows? || answer.MempoolRejects? || answer.MempoolBreaks?
    case Sending(_) => (answer.SendReturns? && ValidTxid(answer.txid)) || answer.SendBreaks? || answer.SendRaises?
    case Working => answer.HandlerReturns? || answer.HandlerFails?
    case Unlocking(_, _) => answer.Quiet?
    case UnlockingRejected(_) => answer.Quiet?
    case _ => false
  }

  const INTERNAL := Failed(500, "INTERNAL_ERROR")

  function SignedDraft(f: Funded, psbt: string, rawTx: string, txid: string): Draft {
    Draft(f.wallet, f.outputs, if psbt != "" then psbt else f.psbt, rawTx, txid, f.feeSats, f.totalOutputSats)
  }

  /** After a lookup: the transaction is known, unknown, or the lookup itself broke. */
  function AfterLookup(w: Worker, p: PreparedBroadcast, answer: Answer, unknown: Pc): Worker {
    w.(pc := if answer.LookupKnown? then MarkingBroadcast(p)
             else if answer.LookupUnknown? then unknown else Finished(INTERNAL))
  }

  /** The worker once the node, or the handler of another route, has answered. */
  function AfterRail(w: Worker, answer: Answer): (w': Worker)
    requires Fits(w.pc, answer)
    ensures w'.call == w.call && w'.token == w.token && w'.life == w.life
  {
    match w.pc
    case Checking =>
      w.(pc := if !answer.broadcastAllowed then Finished(Failed(403, "BROADCAST_DISABLED"))
               else if !answer.confirmed then Finished(Failed(400, "BROADCAST_CONFIRMATION_REQUIRED"))
               else Loading)
    case Funding =>
      if answer.FundedWith? then w.(pc := Signing(answer.funded), fundedPsbt := Some(answer.funded.psbt))
      else w.(pc := Finished(INTERNAL))
    case Signing(f) =>
      w.(pc := if answer.SignedWith? then Saving(f, SignedDraft(f, answer.psbt, answer.rawTx, answer.txid))
               else Unlocking(f.psbt, Failed(409, "PSBT_NOT_FINAL")))
    case Unlocking(psbt, outcome) => w.(pc := Finished(outcome), released := w.released + [psbt])
    case LookingUp(p) => AfterLookup(w, p, answer, TestingMempool(p))
    case TestingMempool(p) =>
      w.(pc := if answer.MempoolAllows? then Sending(p)
               else if answer.MempoolRejects? then LookingUpRejected(p) else Finished(INTERNAL))
    case LookingUpRejected(p) => AfterLookup(w, p, answer, Rejecting(p))
    case UnlockingRejected(p) =>
      w.(pc := Finished(Failed(409, "MEMPOOL_REJECTED")), released := w.released + [p.psbt])
    case Sending(p) =>
      w.(pc :=
           match answer
           case SendReturns(txid) =>
             if txid == p.expectedTxid then MarkingBroadcast(p)
             else MarkingUnknown(p, "Bitcoin Core returned a different txid", Failed(502, "BROADCAST_TXID_MISMATCH"))
           case SendBreaks(status, error) => LookingUpFailed(p, status, error)
           case _ => Finished(Failed(400, "INVALID_TXID")))
    case LookingUpFailed(p, status, error) =>
      AfterLookup(w, p, answer,
                  MarkingUnknown(p, error, Failed(if status < 500 then 503 else status, "BROADCAST_RESULT_UNKNOWN")))
    case Working =>
      if answer.HandlerFails? then w.(pc := Finished(INTERNAL))
      else
        var body := OkBody(answer.payload, w.call.requestId);
        w.(pc := if 200 <= answer.statusCode < 300 then Responding(answer.statusCode, body)
                 else Finished(Answered(answer.statusCode, body)))
  }

  // ------------------------------------------------------------ the system

  /** A successful claim on an absent or expired row starts the key's next life. */
  function NextLives(s: World, op: Op, now: int): map<string, nat> {
    if op.ClaimOp? && (op.key !in s.db.rows || s.db.rows[op.key].expiresAt <= now)
    then s.lives[op.key := LifeOf(s.lives, op.key) + 1]
    else s.lives
  }

  function StoreAct(cfg: Config, s: World, id: nat, op: Op, now: int): World
    requires id in s.workers
  {
    var w := s.workers[id];
    var (db', reply) := Exec(cfg, s.db, op, now);
    var lives' := NextLives(s, op, now);
    var wrote := op.SavePreparedOp? && db' != s.db;
    var w' := AfterStore(w, reply, LifeOf(lives', w.call.key), wrote);
    var life := Life(w.call.key, w.life);
    World(db', s.workers[id := w'], Issue(s.issued, op), lives',
          if wrote then s.origin[db'.lastRecordId := life] else s.origin,
          if wrote then s.history + [Persisted(db'.lastRecordId, life, op.draft.rawTx)] else s.history)
  }

  function RailAct(s: World, id: nat, answer: Answer): World
    requires id in s.workers && Fits(s.workers[id].pc, answer)
  {
    var w := s.workers[id];
    s.(workers := s.workers[id := AfterRail(w, answer)],
       history := if w.pc.Sending?
                  then s.history + [Sent(id, w.pc.prepared.recordId, Life(w.call.key, w.life), w.pc.prepared.rawTx)]
                  else s.history)
  }

  predicate Enabled(s: World, move: Move) {
    match move
    case Arrive(id, _) => id !in s.workers
    case Act(id, _, drawn, answer) =>
      && id in s.workers
      && (if OpAt(s.workers[id], drawn).Some?
          then s.workers[id].pc.Claiming? ==> drawn != "" && drawn !in s.issued
          else Fits(s.workers[id].pc, answer))
    case Crash(id) => id in s.workers && !s.workers[id].pc.Finished?
    case Prune(_) => true
    case Record(record) => record.kind == PsbtKind
  }

  function Step(cfg: Config, s: World, move: Move): World
    requires Enabled(s, move)
  {
    match move
    case Arrive(id, call) => s.(workers := s.workers[id := Worker(call, None, 0, Claiming, None, false, None, [])])
    case Act(id, now, drawn, answer) =>
      (match OpAt(s.workers[id], drawn)
       case Some(op) => StoreAct(cfg, s, id, op, now)
       case None => RailAct(s, id, answer))
    case Crash(id) => s.(workers := s.workers[id := s.workers[id].(pc := Crashed)])
    case Prune(now) => s.(db := Exec(cfg, s.db, PruneOp, now).0)
    case Record(record) => s.(db := Exec(cfg, s.db, RecordOp(record), 0).0)
  }

  /** Any finite run from the empty store. */
  ghost predicate IsRun(cfg: Config, run: seq<World>, moves: seq<Move>) {
    && |run| == |moves| + 1 && run[0] == Initial()
    && forall i :: 0 <= i < |moves| ==> Enabled(run[i], moves[i]) && run[i + 1] == Step(cfg, run[i], moves[i])
  }

  /** Some run leads here. */
  ghost predicate Reachable(cfg: Config, s: World) {
    exists run, moves :: IsRun(cfg, run, moves) && run[|run| - 1] == s
  }

  lemma InitialIsReachable(cfg: Config)
    ensures Reachable(cfg, Initial())
  {
    assert IsRun(cfg, [Initial()], []);
  }

  lemma StepIsReachable(cfg: Config, s: World, move: Move)
    requires Reachable(cfg, s) && Enabled(s, move)
    ensures Reachable(cfg, Step(cfg, s, move))
  {
    var run, moves :| IsRun(cfg, run, moves) && run[|run| - 1] == s;
    assert IsRun(cfg, run + [Step(cfg, s, move)], moves + [move]);
  }
}
