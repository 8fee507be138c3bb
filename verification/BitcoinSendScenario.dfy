/**
 A run in which a broadcast transaction ends up failed. One request broadcasts and stalls.
 A second takes the claim over, submits the same bytes again and loses the node's answer:
 the row goes back to UNKNOWN. A third takes over and the mempool rejects the transaction:
 the row is FAILED_FINAL and the record, once stamped broadcast, is rejected.
 */
module BitcoinSendScenario {
  import opened Prelude
  import opened Json
  import opened BitcoinStore
  import opened BitcoinSend

  function Txid(): string {
    seq(64, i => '0')
  }

  const FUNDED := Funded("wallet", Arr([]), "psbt", 1, 1)

  function Prepared(call: Call): PreparedBroadcast {
    PreparedBroadcast(1, "wallet", call.hash, Arr([]), "psbt", "raw", Txid(), 1, 1)
  }

  function Token(id: nat): string {
    if id == 1 then "a" else if id == 2 then "b" else "c"
  }

  /** The request `id` stands at `pc`, holds the row, and no later request has come. */
  ghost predicate At(s: World, call: Call, id: nat, pc: Pc, state: State) {
    && 1 <= id <= 3 && id in s.workers && (forall i :: i in s.workers ==> i <= id)
    && (forall i :: id < i <= 3 ==> Token(i) !in s.issued)
    && s.workers[id].call == call && s.workers[id].token == Some(Token(id)) && s.workers[id].pc == pc
    && OwnedBy(s.db, call.key, Token(id)) && s.db.rows[call.key].state == state
    && s.db.rows[call.key].scope == call.scope && s.db.rows[call.key].requestHash == call.hash
  }

  /** The row's lease lapses at `lease`, and the row outlives it. */
  ghost predicate Leased(db: Db, key: string, lease: int) {
    key in db.rows && db.rows[key].leaseExpiresAt == Some(lease) && db.rows[key].expiresAt > lease
  }

  ghost predicate Unrecorded(db: Db, key: string) {
    key in db.rows && db.rows[key].preparedRecordId == None && db.lastRecordId == 0
  }

  ghost predicate Recorded(db: Db, call: Call, status: TxStatus) {
    && call.key in db.rows && db.rows[call.key].preparedRecordId == Some(1)
    && db.rows[call.key].paymentHash == Some(Txid())
    && 1 in db.records && db.records[1].status == status
    && LoadPreparedById(db, 1, call.hash) == Loaded(Prepared(call))
  }

  // ------------------------------------------------------------ growing a run

  function Last(run: seq<World>): World
    requires run != []
  {
    run[|run| - 1]
  }

  lemma TxidIsValid()
    ensures ValidTxid(Txid())
  {
  }

  lemma Go(cfg: Config, run: seq<World>, moves: seq<Move>, move: Move) returns (run': seq<World>, moves': seq<Move>)
    requires IsRun(cfg, run, moves) && Enabled(Last(run), move)
    ensures IsRun(cfg, run', moves') && run' == run + [Step(cfg, Last(run), move)]
  {
    run', moves' := run + [Step(cfg, Last(run), move)], moves + [move];
  }

  /** The node answers. */
  lemma Hear(cfg: Config, run: seq<World>, moves: seq<Move>, call: Call, id: nat, pc: Pc, state: State, answer: Answer)
    returns (run': seq<World>, moves': seq<Move>)
    requires IsRun(cfg, run, moves) && At(Last(run), call, id, pc, state)
    requires OpAt(Last(run).workers[id], "") == None && Fits(pc, answer)
    ensures IsRun(cfg, run', moves') && run < run' && Last(run').db == Last(run).db
    ensures At(Last(run'), call, id, AfterRail(Last(run).workers[id], answer).pc, state)
  {
    run', moves' := Go(cfg, run, moves, Act(id, 0, "", answer));
  }

  /** A store call that is no claim. */
  lemma Ask(cfg: Config, run: seq<World>, moves: seq<Move>, call: Call, id: nat, pc: Pc, state: State, now: int, op: Op)
    returns (run': seq<World>, moves': seq<Move>, life: nat, wrote: bool)
    requires IsRun(cfg, run, moves) && At(Last(run), call, id, pc, state)
    requires OpAt(Last(run).workers[id], "") == Some(op) && !op.ClaimOp?
    ensures IsRun(cfg, run', moves') && run < run'
    ensures var s, s' := Last(run), Last(run');
      && s'.db == Exec(cfg, s.db, op, now).0 && s'.issued == s.issued && s'.workers.Keys == s.workers.Keys
      && s'.workers[id] == AfterStore(s.workers[id], Exec(cfg, s.db, op, now).1, life, wrote)
  {
    run', moves' := Go(cfg, run, moves, Act(id, now, "", Quiet));
    life := LifeOf(NextLives(Last(run), op, now), call.key);
    wrote := op.SavePreparedOp? && Last(run').db != Last(run).db;
  }

  // ------------------------------------------------------------ the first request

  lemma Arrives(cfg: Config, call: Call) returns (run: seq<World>, moves: seq<Move>)
    requires SendRoute(call.scope) && 0 <= cfg.claimLease < cfg.ttl
    ensures IsRun(cfg, run, moves) && At(Last(run), call, 1, Checking, State.Claimed)
    ensures Leased(Last(run).db, call.key, cfg.claimLease) && Unrecorded(Last(run).db, call.key)
  {
    run, moves := [Initial()], [];
    run, moves := Go(cfg, run, moves, Arrive(1, call));
    run, moves := Go(cfg, run, moves, Act(1, 0, "a", Quiet));
  }

  lemma Signs(cfg: Config, run: seq<World>, moves: seq<Move>, call: Call)
    returns (run': seq<World>, moves': seq<Move>)
    requires IsRun(cfg, run, moves) && At(Last(run), call, 1, Checking, State.Claimed)
    requires Leased(Last(run).db, call.key, cfg.claimLease) && Unrecorded(Last(run).db, call.key)
    ensures IsRun(cfg, run', moves') && run < run' && Last(run').db == Last(run).db
    ensures At(Last(run'), call, 1, Saving(FUNDED, SignedDraft(FUNDED, "psbt", "raw", Txid())), State.Claimed)
  {
    run', moves' := Hear(cfg, run, moves, call, 1, Checking, State.Claimed, Checked(true, true));
    var life, wrote;
    run', moves', life, wrote :=
      Ask(cfg, run', moves', call, 1, Loading, State.Claimed, 0, LoadPreparedOp(call.key, call.hash));
    run', moves' := Hear(cfg, run', moves', call, 1, Funding, State.Claimed, FundedWith(FUNDED));
    run', moves' := Hear(cfg, run', moves', call, 1, Signing(FUNDED), State.Claimed, SignedWith("psbt", "raw", Txid()));
  }

  lemma Saves(cfg: Config, run: seq<World>, moves: seq<Move>, call: Call)
    returns (run': seq<World>, moves': seq<Move>)
    requires IsRun(cfg, run, moves)
    requires At(Last(run), call, 1, Saving(FUNDED, SignedDraft(FUNDED, "psbt", "raw", Txid())), State.Claimed)
    requires Leased(Last(run).db, call.key, cfg.claimLease) && Unrecorded(Last(run).db, call.key)
    ensures IsRun(cfg, run', moves') && run < run'
    ensures At(Last(run'), call, 1, Heartbeating(Prepared(call)), State.Prepared)
    ensures Leased(Last(run').db, call.key, cfg.claimLease) && Recorded(Last(run').db, call, TxPrepared)
  {
    var draft := SignedDraft(FUNDED, "psbt", "raw", Txid());
    var life, wrote;
    run', moves', life, wrote :=
      Ask(cfg, run, moves, call, 1, Saving(FUNDED, draft), State.Claimed, 0,
          SavePreparedOp(call.key, "a", call.hash, draft));
  }

  lemma Marks(cfg: Config, run: seq<World>, moves: seq<Move>, call: Call)
    returns (run': seq<World>, moves': seq<Move>)
    requires IsRun(cfg, run, moves) && At(Last(run), call, 1, TestingMempool(Prepared(call)), State.Prepared)
    requires Leased(Last(run).db, call.key, cfg.claimLease) && Recorded(Last(run).db, call, TxPrepared)
    ensures IsRun(cfg, run', moves') && run < run' && exists pc :: At(Last(run'), call, 1, pc, State.Broadcast)
    ensures Leased(Last(run').db, call.key, cfg.claimLease) && Recorded(Last(run').db, call, TxBroadcast)
  {
    hide IsRun, Recorded, Leased;
    run', moves' := Allowed(cfg, run, moves, call, 1, State.Prepared);
    run', moves' := IsSent(cfg, run', moves', call);
    run', moves' := Stamps(cfg, run', moves', call);
  }

  lemma Allowed(cfg: Config, run: seq<World>, moves: seq<Move>, call: Call, id: nat, state: State)
    returns (run': seq<World>, moves': seq<Move>)
    requires IsRun(cfg, run, moves) && At(Last(run), call, id, TestingMempool(Prepared(call)), state)
    ensures IsRun(cfg, run', moves') && run < run' && Last(run').db == Last(run).db
    ensures At(Last(run'), call, id, Sending(Prepared(call)), state)
  {
    hide IsRun;
    run', moves' := Hear(cfg, run, moves, call, id, TestingMempool(Prepared(call)), state, MempoolAllows);
  }

  lemma IsSent(cfg: Config, run: seq<World>, moves: seq<Move>, call: Call)
    returns (run': seq<World>, moves': seq<Move>)
    requires IsRun(cfg, run, moves) && At(Last(run), call, 1, Sending(Prepared(call)), State.Prepared)
    ensures IsRun(cfg, run', moves') && run < run' && Last(run').db == Last(run).db
    ensures At(Last(run'), call, 1, MarkingBroadcast(Prepared(call)), State.Prepared)
  {
    hide IsRun;
    TxidIsValid();
    run', moves' := Hear(cfg, run, moves, call, 1, Sending(Prepared(call)), State.Prepared, SendReturns(Txid()));
  }

  lemma Stamps(cfg: Config, run: seq<World>, moves: seq<Move>, call: Call)
    returns (run': seq<World>, moves': seq<Move>)
    requires IsRun(cfg, run, moves) && At(Last(run), call, 1, MarkingBroadcast(Prepared(call)), State.Prepared)
    requires Leased(Last(run).db, call.key, cfg.claimLease) && Recorded(Last(run).db, call, TxPrepared)
    ensures IsRun(cfg, run', moves') && run < run' && exists pc :: At(Last(run'), call, 1, pc, State.Broadcast)
    ensures Leased(Last(run').db, call.key, cfg.claimLease) && Recorded(Last(run').db, call, TxBroadcast)
  {
    hide IsRun;
    var life, wrote;
    run', moves', life, wrote :=
      Ask(cfg, run, moves, call, 1, MarkingBroadcast(Prepared(call)), State.Prepared, 0,
          MarkBroadcastOp(call.key, "a", Txid()));
    assert At(Last(run'), call, 1, Last(run').workers[1].pc, State.Broadcast);
  }

  // ------------------------------------------------------------ steps of every request

  /** From the heartbeat to the question whether the mempool would take the transaction. */
  lemma Approaches(
      cfg: Config, run: seq<World>, moves: seq<Move>, call: Call, id: nat, state: State, status: TxStatus, now: int)
    returns (run': seq<World>, moves': seq<Move>)
    requires IsRun(cfg, run, moves) && At(Last(run), call, id, Heartbeating(Prepared(call)), state) && !Settled(state)
    requires Leased(Last(run).db, call.key, now + cfg.claimLease) && Recorded(Last(run).db, call, status)
    ensures IsRun(cfg, run', moves') && run < run'
    ensures At(Last(run'), call, id, TestingMempool(Prepared(call)), state)
    ensures Leased(Last(run').db, call.key, now + cfg.claimLease) && Recorded(Last(run').db, call, status)
  {
    run', moves' := Beats(cfg, run, moves, call, id, state, status, now);
    run', moves' := Hear(cfg, run', moves', call, id, LookingUp(Prepared(call)), state, LookupUnknown);
  }

  lemma Beats(
      cfg: Config, run: seq<World>, moves: seq<Move>, call: Call, id: nat, state: State, status: TxStatus, now: int)
    returns (run': seq<World>, moves': seq<Move>)
    requires IsRun(cfg, run, moves) && At(Last(run), call, id, Heartbeating(Prepared(call)), state) && !Settled(state)
    requires Leased(Last(run).db, call.key, now + cfg.claimLease) && Recorded(Last(run).db, call, status)
    ensures IsRun(cfg, run', moves') && run < run'
    ensures At(Last(run'), call, id, LookingUp(Prepared(call)), state)
    ensures Leased(Last(run').db, call.key, now + cfg.claimLease) && Recorded(Last(run').db, call, status)
  {
    var life, wrote;
    run', moves', life, wrote :=
      Ask(cfg, run, moves, call, id, Heartbeating(Prepared(call)), state, now, HeartbeatOp(call.key, Token(id)));
  }

  /** The next request comes when the lease has lapsed, and takes the claim over. */
  lemma TakesOver(
      cfg: Config, run: seq<World>, moves: seq<Move>, call: Call, id: nat, pc: Pc, state: State, status: TxStatus,
      now: int)
    returns (run': seq<World>, moves': seq<Move>)
    requires IsRun(cfg, run, moves) && At(Last(run), call, id, pc, state) && id < 3 && !Settled(state)
    requires SendRoute(call.scope) && 0 <= cfg.claimLease < cfg.ttl
    requires Leased(Last(run).db, call.key, now) && Recorded(Last(run).db, call, status)
    ensures IsRun(cfg, run', moves') && run < run' && At(Last(run'), call, id + 1, Checking, state)
    ensures Leased(Last(run').db, call.key, now + cfg.claimLease) && Recorded(Last(run').db, call, status)
    ensures id in Last(run').workers && Last(run').workers[id] == Last(run).workers[id]
  {
    assert run != [];
    hide IsRun, Recorded, Leased, Exec;
    ClaimTakesOver(cfg, Last(run).db, call, Token(id + 1), now, state, status);
    run', moves' := Go(cfg, run, moves, Arrive(id + 1, call));
    run', moves' := Claims(cfg, run', moves', call, id + 1, state, now);
  }

  /** A request that has just come claims the row and gets it. */
  lemma Claims(cfg: Config, run: seq<World>, moves: seq<Move>, call: Call, id: nat, state: State, now: int)
    returns (run': seq<World>, moves': seq<Move>)
    requires IsRun(cfg, run, moves) && 1 <= id <= 3 && id in Last(run).workers && SendRoute(call.scope)
    requires Last(run).workers[id] == Worker(call, None, 0, Claiming, None, false, None, [])
    requires (forall i :: i in Last(run).workers ==> i <= id)
      && (forall i :: id <= i <= 3 ==> Token(i) !in Last(run).issued)
    requires var (db', reply) := Exec(cfg, Last(run).db, ClaimOp(call.key, call.scope, call.hash, Token(id)), now);
      && reply == Claim(Token(id), state, Some(1)) && OwnedBy(db', call.key, Token(id))
      && db'.rows[call.key].state == state && db'.rows[call.key].scope == call.scope
      && db'.rows[call.key].requestHash == call.hash
    ensures IsRun(cfg, run', moves') && run < run' && At(Last(run'), call, id, Checking, state)
    ensures Last(run').db == Exec(cfg, Last(run).db, ClaimOp(call.key, call.scope, call.hash, Token(id)), now).0
    ensures forall i :: i in Last(run).workers && i != id ==>
      i in Last(run').workers && Last(run').workers[i] == Last(run).workers[i]
  {
    hide IsRun, Exec;
    run', moves' := Go(cfg, run, moves, Act(id, now, Token(id), Quiet));
  }

  lemma ClaimTakesOver(
      cfg: Config, db: Db, call: Call, drawn: string, now: int, state: State, status: TxStatus)
    requires call.key in db.rows && db.rows[call.key].state == state && !Settled(state) && cfg.claimLease < cfg.ttl
    requires db.rows[call.key].scope == call.scope && db.rows[call.key].requestHash == call.hash
    requires Leased(db, call.key, now) && Recorded(db, call, status)
    ensures var (db', reply) := Exec(cfg, db, ClaimOp(call.key, call.scope, call.hash, drawn), now);
      && reply == Claim(drawn, state, Some(1)) && OwnedBy(db', call.key, drawn)
      && db'.rows[call.key].state == state && db'.rows[call.key].scope == call.scope
      && db'.rows[call.key].requestHash == call.hash
      && Leased(db', call.key, now + cfg.claimLease) && Recorded(db', call, status)
  {
  }

  /** It finds the transaction that was persisted before. */
  lemma Reloads(cfg: Config, run: seq<World>, moves: seq<Move>, call: Call, id: nat, state: State, status: TxStatus)
    returns (run': seq<World>, moves': seq<Move>)
    requires IsRun(cfg, run, moves) && At(Last(run), call, id, Checking, state) && Recorded(Last(run).db, call, status)
    ensures IsRun(cfg, run', moves') && run < run' && Last(run').db == Last(run).db
    ensures At(Last(run'), call, id, Heartbeating(Prepared(call)), state)
  {
    run', moves' := Hear(cfg, run, moves, call, id, Checking, state, Checked(true, true));
    var life, wrote;
    run', moves', life, wrote :=
      Ask(cfg, run', moves', call, id, Loading, state, 0, LoadPreparedOp(call.key, call.hash));
  }

  // ------------------------------------------------------------ the second and the third

  /** It submits the same bytes, and the node's answer is lost. */
  lemma Doubts(cfg: Config, run: seq<World>, moves: seq<Move>, call: Call, now: int)
    returns (run': seq<World>, moves': seq<Move>)
    requires IsRun(cfg, run, moves) && At(Last(run), call, 2, TestingMempool(Prepared(call)), State.Broadcast)
    requires Leased(Last(run).db, call.key, now + cfg.claimLease) && Recorded(Last(run).db, call, TxBroadcast)
    ensures IsRun(cfg, run', moves') && run < run' && exists pc :: At(Last(run'), call, 2, pc, State.Unknown)
    ensures Leased(Last(run').db, call.key, now + cfg.claimLease) && Recorded(Last(run').db, call, TxBroadcast)
  {
    hide IsRun, Recorded, Leased;
    run', moves' := Allowed(cfg, run, moves, call, 2, State.Broadcast);
    run', moves' := LosesTheAnswer(cfg, run', moves', call);
    run', moves' := Notes(cfg, run', moves', call, now);
  }

  const LOST := Failed(503, "BROADCAST_RESULT_UNKNOWN")

  lemma LosesTheAnswer(cfg: Config, run: seq<World>, moves: seq<Move>, call: Call)
    returns (run': seq<World>, moves': seq<Move>)
    requires IsRun(cfg, run, moves) && At(Last(run), call, 2, Sending(Prepared(call)), State.Broadcast)
    ensures IsRun(cfg, run', moves') && run < run' && Last(run').db == Last(run).db
    ensures At(Last(run'), call, 2, MarkingUnknown(Prepared(call), "timeout", LOST), State.Broadcast)
  {
    hide IsRun, Recorded, Leased;
    var p := Prepared(call);
    run', moves' := Hear(cfg, run, moves, call, 2, Sending(p), State.Broadcast, SendBreaks(503, "timeout"));
    run', moves' :=
      Hear(cfg, run', moves', call, 2, LookingUpFailed(p, 503, "timeout"), State.Broadcast, LookupUnknown);
  }

  lemma Notes(cfg: Config, run: seq<World>, moves: seq<Move>, call: Call, now: int)
    returns (run': seq<World>, moves': seq<Move>)
    requires IsRun(cfg, run, moves)
    requires At(Last(run), call, 2, MarkingUnknown(Prepared(call), "timeout", LOST), State.Broadcast)
    requires Leased(Last(run).db, call.key, now + cfg.claimLease) && Recorded(Last(run).db, call, TxBroadcast)
    ensures IsRun(cfg, run', moves') && run < run' && exists pc :: At(Last(run'), call, 2, pc, State.Unknown)
    ensures Leased(Last(run').db, call.key, now + cfg.claimLease) && Recorded(Last(run').db, call, TxBroadcast)
  {
    hide IsRun;
    var life, wrote;
    run', moves', life, wrote :=
      Ask(cfg, run, moves, call, 2, MarkingUnknown(Prepared(call), "timeout", LOST), State.Broadcast, now,
          MarkUnknownOp(call.key, "b", Txid(), "timeout"));
    assert At(Last(run'), call, 2, Last(run').workers[2].pc, State.Unknown);
  }

  lemma Rejects(cfg: Config, run: seq<World>, moves: seq<Move>, call: Call, now: int)
    returns (run': seq<World>, moves': seq<Move>)
    requires IsRun(cfg, run, moves) && At(Last(run), call, 3, TestingMempool(Prepared(call)), State.Unknown)
    requires Recorded(Last(run).db, call, TxBroadcast)
    ensures IsRun(cfg, run', moves') && run < run' && Says(Last(run'), call.key, FailedFinal, TxRejected)
  {
    hide IsRun, Recorded, Leased;
    var p := Prepared(call);
    run', moves' := Hear(cfg, run, moves, call, 3, TestingMempool(p), State.Unknown, MempoolRejects);
    run', moves' := Hear(cfg, run', moves', call, 3, LookingUpRejected(p), State.Unknown, LookupUnknown);
    run', moves' := Fails(cfg, run', moves', call, now);
  }

  lemma Fails(cfg: Config, run: seq<World>, moves: seq<Move>, call: Call, now: int)
    returns (run': seq<World>, moves': seq<Move>)
    requires IsRun(cfg, run, moves) && At(Last(run), call, 3, Rejecting(Prepared(call)), State.Unknown)
    requires Recorded(Last(run).db, call, TxBroadcast)
    ensures IsRun(cfg, run', moves') && run < run' && Says(Last(run'), call.key, FailedFinal, TxRejected)
  {
    var life, wrote;
    run', moves', life, wrote :=
      Ask(cfg, run, moves, call, 3, Rejecting(Prepared(call)), State.Unknown, now,
          OpAt(Last(run).workers[3], "").value);
  }

  // ------------------------------------------------------------ the run

  /** The key's row and its record. */
  ghost predicate Says(s: World, key: string, state: State, status: TxStatus) {
    && key in s.db.rows && s.db.rows[key].state == state && s.db.rows[key].preparedRecordId == Some(1)
    && 1 in s.db.records && s.db.records[1].status == status
  }

  lemma Broadcasts(cfg: Config, call: Call) returns (run: seq<World>, moves: seq<Move>)
    requires SendRoute(call.scope) && 0 <= cfg.claimLease < cfg.ttl
    ensures IsRun(cfg, run, moves) && exists pc :: At(Last(run), call, 1, pc, State.Broadcast)
    ensures Leased(Last(run).db, call.key, cfg.claimLease) && Recorded(Last(run).db, call, TxBroadcast)
  {
    run, moves := Arrives(cfg, call);
    run, moves := Signs(cfg, run, moves, call);
    run, moves := Saves(cfg, run, moves, call);
    run, moves := Approaches(cfg, run, moves, call, 1, State.Prepared, TxPrepared, 0);
    run, moves := Marks(cfg, run, moves, call);
  }

  lemma Resumes(cfg: Config, run: seq<World>, moves: seq<Move>, call: Call, id: nat, state: State, now: int)
    returns (run': seq<World>, moves': seq<Move>)
    requires IsRun(cfg, run, moves) && id < 3 && !Settled(state) && exists pc :: At(Last(run), call, id, pc, state)
    requires SendRoute(call.scope) && 0 <= cfg.claimLease < cfg.ttl
    requires Leased(Last(run).db, call.key, now) && Recorded(Last(run).db, call, TxBroadcast)
    ensures IsRun(cfg, run', moves') && run < run'
    ensures At(Last(run'), call, id + 1, TestingMempool(Prepared(call)), state)
    ensures Leased(Last(run').db, call.key, now + cfg.claimLease) && Recorded(Last(run').db, call, TxBroadcast)
  {
    assert run != [];
    hide IsRun;
    var pc :| At(Last(run), call, id, pc, state);
    run', moves' := TakesOver(cfg, run, moves, call, id, pc, state, TxBroadcast, now);
    run', moves' := Reloads(cfg, run', moves', call, id + 1, state, TxBroadcast);
    run', moves' := Approaches(cfg, run', moves', call, id + 1, state, TxBroadcast, now);
  }

  /**
   BROADCAST is not final: for every send request there is a run in which its row is BROADCAST
   over a record stamped broadcast, and later FAILED_FINAL over the same record stamped rejected.
   The three requests read the clock one lease apart.
   */
  lemma BroadcastCanStillFail(cfg: Config, call: Call) returns (run: seq<World>, moves: seq<Move>, n: nat)
    requires SendRoute(call.scope) && 0 <= cfg.claimLease < cfg.ttl
    ensures IsRun(cfg, run, moves) && n < |run| - 1
    ensures Says(run[n], call.key, State.Broadcast, TxBroadcast)
    ensures Says(Last(run), call.key, FailedFinal, TxRejected)
  {
    hide IsRun;
    run, moves := Broadcasts(cfg, call);
    n := |run| - 1;
    ghost var first := run;
    run, moves := Resumes(cfg, run, moves, call, 1, State.Broadcast, cfg.claimLease);
    run, moves := Doubts(cfg, run, moves, call, cfg.claimLease);
    run, moves := Resumes(cfg, run, moves, call, 2, State.Unknown, 2 * cfg.claimLease);
    run, moves := Rejects(cfg, run, moves, call, 2 * cfg.claimLease);
    assert run[n] == Last(first);
  }

  // ------------------------------------------------------------ a success

  lemma Marked(cfg: Config, call: Call) returns (run: seq<World>, moves: seq<Move>)
    requires SendRoute(call.scope) && 0 <= cfg.claimLease < cfg.ttl
    ensures IsRun(cfg, run, moves)
    ensures At(Last(run), call, 1, Responding(200, OkBody(BroadcastResult(Prepared(call)), call.requestId)),
               State.Broadcast)
    ensures Recorded(Last(run).db, call, TxBroadcast)
  {
    hide IsRun, Recorded, Leased, OkBody, BroadcastResult;
    run, moves := ReadyToSend(cfg, call);
    run, moves := IsSent(cfg, run, moves, call);
    run, moves := Responds(cfg, run, moves, call);
  }

  lemma Responds(cfg: Config, run: seq<World>, moves: seq<Move>, call: Call)
    returns (run': seq<World>, moves': seq<Move>)
    requires IsRun(cfg, run, moves) && At(Last(run), call, 1, MarkingBroadcast(Prepared(call)), State.Prepared)
    requires Recorded(Last(run).db, call, TxPrepared)
    ensures IsRun(cfg, run', moves') && run < run'
    ensures At(Last(run'), call, 1, Responding(200, OkBody(BroadcastResult(Prepared(call)), call.requestId)),
               State.Broadcast)
    ensures Recorded(Last(run').db, call, TxBroadcast)
  {
    hide IsRun, OkBody, BroadcastResult;
    var life, wrote;
    run', moves', life, wrote :=
      Ask(cfg, run, moves, call, 1, MarkingBroadcast(Prepared(call)), State.Prepared, 0,
          MarkBroadcastOp(call.key, "a", Txid()));
  }

  /** A send request can succeed: in some run it submits, and ends with its broadcast stored and answered. */
  lemma SendCanSucceed(cfg: Config, call: Call) returns (run: seq<World>, moves: seq<Move>)
    requires SendRoute(call.scope) && 0 <= cfg.claimLease < cfg.ttl
    ensures IsRun(cfg, run, moves) && Says(Last(run), call.key, Succeeded, TxBroadcast)
    ensures 1 in Last(run).workers && Last(run).workers[1].pc ==
      Finished(Answered(200, OkBody(BroadcastResult(Prepared(call)), call.requestId)))
  {
    run, moves := Marked(cfg, call);
    run, moves := Settles(cfg, run, moves, call, OkBody(BroadcastResult(Prepared(call)), call.requestId));
  }

  lemma Settles(cfg: Config, run: seq<World>, moves: seq<Move>, call: Call, body: Json)
    returns (run': seq<World>, moves': seq<Move>)
    requires IsRun(cfg, run, moves) && At(Last(run), call, 1, Responding(200, body), State.Broadcast)
    requires Recorded(Last(run).db, call, TxBroadcast)
    ensures IsRun(cfg, run', moves') && run < run' && Says(Last(run'), call.key, Succeeded, TxBroadcast)
    ensures 1 in Last(run').workers && Last(run').workers[1].pc == Finished(Answered(200, body))
  {
    hide IsRun;
    var life, wrote;
    run', moves', life, wrote :=
      Ask(cfg, run, moves, call, 1, Responding(200, body), State.Broadcast, 0,
          StoreResponseOp(call.key, call.scope, call.hash, "a", 200, body));
  }

  // ------------------------------------------------------------ a late submission

  /** The first request is about to send, and the row is another's. */
  ghost predicate Stalled(s: World, call: Call) {
    && 1 in s.workers && s.workers[1].call == call && s.workers[1].token.Some?
    && s.workers[1].pc == Sending(Prepared(call)) && !OwnedBy(s.db, call.key, s.workers[1].token.value)
  }

  lemma ReadyToSend(cfg: Config, call: Call) returns (run: seq<World>, moves: seq<Move>)
    requires SendRoute(call.scope) && 0 <= cfg.claimLease < cfg.ttl
    ensures IsRun(cfg, run, moves) && At(Last(run), call, 1, Sending(Prepared(call)), State.Prepared)
    ensures Leased(Last(run).db, call.key, cfg.claimLease) && Recorded(Last(run).db, call, TxPrepared)
  {
    hide IsRun, At, Recorded, Leased;
    run, moves := Arrives(cfg, call);
    run, moves := Signs(cfg, run, moves, call);
    run, moves := Saves(cfg, run, moves, call);
    run, moves := Approaches(cfg, run, moves, call, 1, State.Prepared, TxPrepared, 0);
    run, moves := Allowed(cfg, run, moves, call, 1, State.Prepared);
  }

  lemma Stalls(cfg: Config, call: Call) returns (run: seq<World>, moves: seq<Move>)
    requires SendRoute(call.scope) && 0 <= cfg.claimLease < cfg.ttl
    ensures IsRun(cfg, run, moves) && Stalled(Last(run), call)
  {
    hide IsRun, Recorded, Leased;
    run, moves := ReadyToSend(cfg, call);
    run, moves := TakesOver(cfg, run, moves, call, 1, Sending(Prepared(call)), State.Prepared, TxPrepared,
                            cfg.claimLease);
  }

  /**
   The heartbeat does not fence the node: for every send request there is a run whose last step
   is a submission by a worker that holds the row no longer.
   */
  lemma StalledWorkerStillSends(cfg: Config, call: Call) returns (run: seq<World>, moves: seq<Move>)
    requires SendRoute(call.scope) && 0 <= cfg.claimLease < cfg.ttl
    ensures IsRun(cfg, run, moves) && |run| >= 2
    ensures var s := run[|run| - 2];
      && Stalled(s, call)
      && Last(run).history == s.history + [Sent(1, 1, Life(call.key, s.workers[1].life), "raw")]
  {
    run, moves := Stalls(cfg, call);
    TxidIsValid();
    run, moves := Go(cfg, run, moves, Act(1, 0, "", SendReturns(Txid())));
  }
}
