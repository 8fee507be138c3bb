/**
 `_json_post` around `create_sign_and_send`, as the step sequence it is: it calls the
 store and the node, keeps its local variables, and between any two steps lets every
 other request, pruning and crash happen (`Elsewhere`). Its contract says that the
 sequence is a worker of the transition system, from the claim to the answer it gives,
 and that the world stays a reachable one, so the theorems about runs speak of this code.
 */
module BitcoinSendHandler {
  import opened Prelude
  import opened Json
  import opened BitcoinStore
  import opened BitcoinCohesionStore
  import opened BitcoinSend
  import opened BitcoinSendInvariant
  import opened BitcoinSendSteps

  /** What submitting does to the world: the event, and where the worker stands for each answer. */
  lemma SubmissionStep(cfg: Config, s: World, me: nat, answer: Answer)
    requires me in s.workers && s.workers[me].pc.Sending? && Fits(s.workers[me].pc, answer)
    ensures Enabled(s, Act(me, 0, "", answer))
    ensures var w, s' := s.workers[me], Step(cfg, s, Act(me, 0, "", answer));
      var p := w.pc.prepared;
      && s'.db == s.db
      && s'.history == s.history + [Sent(me, p.recordId, Life(w.call.key, w.life), p.rawTx)]
      && s'.workers[me] == w.(pc := if answer.SendRaises? then Finished(Failed(400, "INVALID_TXID"))
                                    else if answer.SendBreaks? then LookingUpFailed(p, answer.rpcStatus, answer.error)
                                    else if answer.txid == p.expectedTxid then MarkingBroadcast(p)
                                    else MarkingUnknown(p, "Bitcoin Core returned a different txid",
                                                        Failed(502, "BROADCAST_TXID_MISMATCH")))
  {
  }

  /** Where a send request stands once its claim has been answered. */
  lemma ClaimAnswered(cfg: Config, db: Db, w: Worker, drawn: string, now: int, life: nat)
    requires w.pc.Claiming? && SendRoute(w.call.scope)
    ensures var reply := Exec(cfg, db, ClaimOp(w.call.key, w.call.scope, w.call.hash, drawn), now).1;
      var w' := AfterStore(w, reply, life, false);
      && (reply.Claim? || reply.Replay? || reply.Refused?)
      && match reply
         case Replay(statusCode, body) => w'.pc == Finished(Answered(statusCode, TagReplay(body, w.call.requestId)))
         case Refused(why) => w'.pc == Finished(RefusalOutcome(why))
         case _ => w'.pc == Checking && w'.token == Some(drawn)
  {
  }

  /** Where it stands once it has tried to persist its transaction. */
  lemma SaveAnswered(cfg: Config, db: Db, w: Worker, token: string, now: int, life: nat, wrote: bool)
    requires w.pc.Saving? && w.token == Some(token) && DbOk(db)
    ensures var reply := Exec(cfg, db, SavePreparedOp(w.call.key, token, w.call.hash, w.pc.draft), now).1;
      var pc := AfterStore(w, reply, life, wrote).pc;
      && (reply.Loaded? || reply.Refused?)
      && (if reply.Loaded? then pc == Heartbeating(reply.prepared)
          else pc == Unlocking(w.pc.funded.psbt, RefusalOutcome(reply.why)))
  {
  }

  class SendService {
    const store: CohesionStore
    ghost var world: World

    ghost predicate Valid()
      reads this, store
    {
      store.Valid() && Reachable(store.cfg, world) && Inv(world) && world.db == store.Tables()
    }

    /** The request `me` is at `pc`, holding `token`. */
    ghost predicate Here(me: nat, call: Call, token: string, pc: Pc)
      reads this
    {
      me in world.workers && world.workers[me].call == call && world.workers[me].token == Some(token)
      && world.workers[me].pc == pc
    }

    /** The broadcast of `p` is recorded, and its result is about to be stored. */
    ghost predicate Ready(me: nat, call: Call, token: string, p: PreparedBroadcast)
      reads this
    {
      Here(me, call, token, Responding(200, OkBody(BroadcastResult(p), call.requestId)))
    }

    /** The request `me` has ended with `outcome`. */
    ghost predicate Ended(me: nat, outcome: Outcome)
      reads this
    {
      me in world.workers && world.workers[me].pc == Finished(outcome)
    }

    constructor (store: CohesionStore)
      requires store.Tables() == Initial().db
      ensures this.store == store && Valid() && world == Initial()
    {
      this.store := store;
      world := Initial();
      InitialIsReachable(store.cfg);
    }

    /** Anything the others can do. Callers know only what the contract says. */
    method Elsewhere(ghost me: nat)
      requires Valid() && me in world.workers
      modifies this`world, store
      ensures Valid() && me in world.workers && world.workers[me] == old(world.workers[me])
    {
    }

    /** The transition system takes the step the code has just taken. */
    ghost method Tick(move: Move)
      requires store.Valid() && Reachable(store.cfg, world) && Inv(world) && Enabled(world, move)
      requires Step(store.cfg, world, move).db == store.Tables()
      modifies this`world
      ensures Valid() && world == Step(store.cfg, old(world), move)
    {
      hide Inv, Reachable;
      StepKeepsInv(store.cfg, world, move);
      StepIsReachable(store.cfg, world, move);
      world := Step(store.cfg, world, move);
    }

    /** The same for a store call: the tables and the reply are those of the worker's next call. */
    ghost method TickStore(me: nat, op: Op, now: int, drawn: string, reply: Reply)
      requires store.Valid() && Reachable(store.cfg, world) && Inv(world)
      requires me in world.workers && OpAt(world.workers[me], drawn) == Some(op)
      requires !op.PruneOp? && !op.RecordOp? && op.key == world.workers[me].call.key
      requires op.ClaimOp? ==> drawn != "" && drawn !in world.issued
      requires Exec(store.cfg, world.db, op, now) == (store.Tables(), reply)
      modifies this`world
      ensures Valid() && me in world.workers
      ensures world.workers[me] == AfterStore(old(world.workers[me]), reply, LifeOf(world.lives, op.key),
                                              op.SavePreparedOp? && world.db != old(world.db))
    {
      hide Inv, Reachable;
      Tick(Act(me, now, drawn, Quiet));
    }

    // ---------------------------------------------------------- the node, an adversary

    method Clock() returns (now: int)
    {
      now := *;
    }

    method AskKnown() returns (answer: Answer)
      ensures answer.LookupKnown? || answer.LookupUnknown? || answer.LookupBreaks?
    {
      var n: int := *;
      answer := if n == 0 then LookupKnown else if n == 1 then LookupUnknown else LookupBreaks;
    }

    method AskMempool() returns (answer: Answer)
      ensures answer.MempoolAllows? || answer.MempoolRejects? || answer.MempoolBreaks?
    {
      var n: int := *;
      answer := if n == 0 then MempoolAllows else if n == 1 then MempoolRejects else MempoolBreaks;
    }

    method AskFund() returns (answer: Answer)
      ensures answer.FundingFails? || (answer.FundedWith? && answer.funded.psbt != "")
    {
      var funded: Funded := *;
      answer := if funded.psbt != "" then FundedWith(funded) else FundingFails;
    }

    method AskSign() returns (answer: Answer)
      ensures answer.SigningFails? || (answer.SignedWith? && answer.rawTx != "" && ValidTxid(answer.txid))
    {
      var psbt: string, rawTx: string, txid: string := *, *, *;
      answer := if rawTx != "" && ValidTxid(txid) then SignedWith(psbt, rawTx, txid) else SigningFails;
    }

    method AskSend(rawTx: string) returns (answer: Answer)
      ensures (answer.SendReturns? && ValidTxid(answer.txid)) || answer.SendBreaks? || answer.SendRaises?
    {
      var breaks: bool, status: int, text: string := *, *, *;
      answer := if breaks then SendBreaks(status, text) else if ValidTxid(text) then SendReturns(text) else SendRaises;
    }

    // ---------------------------------------------------------- the handler

    method SendTransaction(ghost me: nat, call: Call, drawn: string, broadcastAllowed: bool, confirmed: bool)
      returns (outcome: Outcome)
      requires Valid() && SendRoute(call.scope)
      requires me in world.workers && world.workers[me] == Worker(call, None, 0, Claiming, None, false, None, [])
      requires drawn != "" && drawn !in world.issued
      modifies this`world, store
      ensures Valid() && Ended(me, outcome)
    {
      hide Inv, Reachable;
      var claim := ClaimKey(me, call, drawn);
      if claim.Replay? {
        return Answered(claim.statusCode, TagReplay(claim.body, call.requestId));
      }
      if claim.Refused? {
        return RefusalOutcome(claim.why);
      }
      var result := CreateSignAndSend(me, call, drawn, broadcastAllowed, confirmed);
      if result.Err? {
        return result.error;
      }
      outcome := StoreAnswer(me, call, drawn, 200, OkBody(BroadcastResult(result.value), call.requestId));
    }

    method ClaimKey(ghost me: nat, call: Call, drawn: string) returns (claim: Reply)
      requires Valid() && SendRoute(call.scope)
      requires me in world.workers && world.workers[me] == Worker(call, None, 0, Claiming, None, false, None, [])
      requires drawn != "" && drawn !in world.issued
      modifies this`world, store
      ensures Valid()
      ensures claim.Claim? || claim.Replay? || claim.Refused?
      ensures match claim
        case Replay(statusCode, body) => Ended(me, Answered(statusCode, TagReplay(body, call.requestId)))
        case Refused(why) => Ended(me, RefusalOutcome(why))
        case _ => Here(me, call, drawn, Checking)
    {
      hide Inv, Reachable;
      var now := Clock();
      claim := store.ClaimIdempotent(call.key, call.scope, call.hash, drawn, now);
      ghost var lives := NextLives(world, ClaimOp(call.key, call.scope, call.hash, drawn), now);
      ClaimAnswered(store.cfg, world.db, world.workers[me], drawn, now, LifeOf(lives, call.key));
      Tick(Act(me, now, drawn, Quiet));
    }

    /** The tail of `_json_post`: the answer is stored before it is given. */
    method StoreAnswer(ghost me: nat, call: Call, token: string, statusCode: int, body: Json) returns (outcome: Outcome)
      requires Valid() && Here(me, call, token, Responding(statusCode, body))
      modifies this`world, store
      ensures Valid() && Ended(me, outcome)
    {
      hide Inv, Reachable;
      Elsewhere(me);
      var now := Clock();
      var stored := store.StoreResponse(call.key, call.scope, call.hash, token, statusCode, body, now);
      Tick(Act(me, now, "", Quiet));
      outcome := if stored == Stored then Answered(statusCode, body) else CLAIM_LOST;
    }

    /** `create_sign_and_send`, up to the recorded broadcast. */
    method CreateSignAndSend(ghost me: nat, call: Call, token: string, broadcastAllowed: bool, confirmed: bool)
      returns (result: Result<PreparedBroadcast, Outcome>)
      requires Valid() && Here(me, call, token, Checking)
      modifies this`world, store
      ensures Valid()
      ensures match result
        case Ok(p) => Ready(me, call, token, p)
        case Err(outcome) => Ended(me, outcome)
    {
      hide Inv, Reachable;
      Elsewhere(me);
      Tick(Act(me, 0, "", Checked(broadcastAllowed, confirmed)));
      if !broadcastAllowed {
        return Err(Failed(403, "BROADCAST_DISABLED"));
      }
      if !confirmed {
        return Err(Failed(400, "BROADCAST_CONFIRMATION_REQUIRED"));
      }
      result := Resume(me, call, token);
    }

    /** An earlier transaction of the key is reused; only if there is none is one prepared. */
    method Resume(ghost me: nat, call: Call, token: string) returns (result: Result<PreparedBroadcast, Outcome>)
      requires Valid() && Here(me, call, token, Loading)
      modifies this`world, store
      ensures Valid()
      ensures match result
        case Ok(p) => Ready(me, call, token, p)
        case Err(outcome) => Ended(me, outcome)
    {
      hide Inv, Reachable;
      Elsewhere(me);
      var loaded := store.LoadPreparedBroadcast(call.key, call.hash);
      TickStore(me, LoadPreparedOp(call.key, call.hash), 0, "", loaded);
      if loaded.Loaded? {
        result := Submit(me, call, token, loaded.prepared);
      } else {
        result := FundAndSubmit(me, call, token);
      }
    }

    method FundAndSubmit(ghost me: nat, call: Call, token: string) returns (result: Result<PreparedBroadcast, Outcome>)
      requires Valid() && Here(me, call, token, Funding)
      modifies this`world, store
      ensures Valid()
      ensures match result
        case Ok(p) => Ready(me, call, token, p)
        case Err(outcome) => Ended(me, outcome)
    {
      hide Inv, Reachable;
      result := FundAndPersist(me, call, token);
      if result.Ok? {
        result := Submit(me, call, token, result.value);
      }
    }

    method FundAndPersist(ghost me: nat, call: Call, token: string) returns (result: Result<PreparedBroadcast, Outcome>)
      requires Valid() && Here(me, call, token, Funding)
      modifies this`world, store
      ensures Valid()
      ensures match result
        case Ok(prepared) => Here(me, call, token, Heartbeating(prepared))
        case Err(outcome) => Ended(me, outcome)
    {
      hide Inv, Reachable;
      Elsewhere(me);
      var funding := AskFund();
      Tick(Act(me, 0, "", funding));
      if funding.FundingFails? {
        return Err(INTERNAL);
      }
      var funded := funding.funded;
      Elsewhere(me);
      var signing := AskSign();
      Tick(Act(me, 0, "", signing));
      if signing.SigningFails? {
        Unlock(me, call, token, funded.psbt, Failed(409, "PSBT_NOT_FINAL"));
        return Err(Failed(409, "PSBT_NOT_FINAL"));
      }
      result := Persist(me, call, token, funded, SignedDraft(funded, signing.psbt, signing.rawTx, signing.txid));
    }

    method Persist(ghost me: nat, call: Call, token: string, funded: Funded, draft: Draft)
      returns (result: Result<PreparedBroadcast, Outcome>)
      requires Valid() && Here(me, call, token, Saving(funded, draft))
      modifies this`world, store
      ensures Valid()
      ensures match result
        case Ok(prepared) => Here(me, call, token, Heartbeating(prepared))
        case Err(outcome) => Ended(me, outcome)
    {
      hide Inv, Reachable;
      Elsewhere(me);
      WorkerIsOk(world, me);
      var now := Clock();
      var saved := store.SavePreparedBroadcast(call.key, token, call.hash, draft, now);
      ghost var before := world;
      TickStore(me, SavePreparedOp(call.key, token, call.hash, draft), now, "", saved);
      SaveAnswered(store.cfg, before.db, before.workers[me], token, now, LifeOf(world.lives, call.key),
                   world.db != before.db);
      if saved.Loaded? {
        return Ok(saved.prepared);
      }
      Unlock(me, call, token, funded.psbt, RefusalOutcome(saved.why));
      return Err(RefusalOutcome(saved.why));
    }

    /** `_unlock_psbt_inputs`, and the error that was waiting to be raised. */
    method Unlock(ghost me: nat, call: Call, token: string, psbt: string, outcome: Outcome)
      requires Valid() && Here(me, call, token, Unlocking(psbt, outcome))
      modifies this`world, store
      ensures Valid() && Ended(me, outcome)
    {
      hide Inv, Reachable;
      Elsewhere(me);
      Tick(Act(me, 0, "", Quiet));
    }

    method Submit(ghost me: nat, call: Call, token: string, prepared: PreparedBroadcast)
      returns (result: Result<PreparedBroadcast, Outcome>)
      requires Valid() && Here(me, call, token, Heartbeating(prepared))
      modifies this`world, store
      ensures Valid()
      ensures match result
        case Ok(p) => p == prepared && Ready(me, call, token, p)
        case Err(outcome) => Ended(me, outcome)
    {
      hide Inv, Reachable;
      Elsewhere(me);
      var now := Clock();
      var alive := store.HeartbeatClaim(call.key, token, now);
      Tick(Act(me, now, "", Quiet));
      if !alive {
        return Err(CLAIM_LOST);
      }
      result := LookUp(me, call, token, prepared);
    }

    /** Submission starts with the question whether the transaction is known already. */
    method LookUp(ghost me: nat, call: Call, token: string, prepared: PreparedBroadcast)
      returns (result: Result<PreparedBroadcast, Outcome>)
      requires Valid() && Here(me, call, token, LookingUp(prepared))
      modifies this`world, store
      ensures Valid()
      ensures match result
        case Ok(p) => p == prepared && Ready(me, call, token, p)
        case Err(outcome) => Ended(me, outcome)
    {
      hide Inv, Reachable;
      Elsewhere(me);
      var known := AskKnown();
      Tick(Act(me, 0, "", known));
      if known.LookupKnown? {
        result := RecordBroadcast(me, call, token, prepared);
        return;
      } else if known.LookupBreaks? {
        return Err(INTERNAL);
      }
      result := TestMempool(me, call, token, prepared);
    }

    method TestMempool(ghost me: nat, call: Call, token: string, prepared: PreparedBroadcast)
      returns (result: Result<PreparedBroadcast, Outcome>)
      requires Valid() && Here(me, call, token, TestingMempool(prepared))
      modifies this`world, store
      ensures Valid()
      ensures match result
        case Ok(p) => p == prepared && Ready(me, call, token, p)
        case Err(outcome) => Ended(me, outcome)
    {
      hide Inv, Reachable;
      Elsewhere(me);
      var mempool := AskMempool();
      Tick(Act(me, 0, "", mempool));
      if mempool.MempoolBreaks? {
        return Err(INTERNAL);
      } else if mempool.MempoolRejects? {
        result := Reject(me, call, token, prepared);
      } else {
        result := Broadcast(me, call, token, prepared);
      }
    }

    method RecordBroadcast(ghost me: nat, call: Call, token: string, prepared: PreparedBroadcast)
      returns (result: Result<PreparedBroadcast, Outcome>)
      requires Valid() && Here(me, call, token, MarkingBroadcast(prepared))
      modifies this`world, store
      ensures Valid()
      ensures match result
        case Ok(p) => p == prepared && Ready(me, call, token, p)
        case Err(outcome) => Ended(me, outcome)
    {
      hide Inv, Reachable, OkBody, BroadcastResult;
      Elsewhere(me);
      var now := Clock();
      var marked := store.MarkBroadcast(call.key, token, prepared.expectedTxid, now);
      Tick(Act(me, now, "", Quiet));
      result := if marked == Stored then Ok(prepared) else Err(CLAIM_LOST);
    }

    /** The mempool refused the transaction: unless the node knows it after all, give it up. */
    method Reject(ghost me: nat, call: Call, token: string, prepared: PreparedBroadcast)
      returns (result: Result<PreparedBroadcast, Outcome>)
      requires Valid() && Here(me, call, token, LookingUpRejected(prepared))
      modifies this`world, store
      ensures Valid()
      ensures match result
        case Ok(p) => p == prepared && Ready(me, call, token, p)
        case Err(outcome) => Ended(me, outcome)
    {
      hide Inv, Reachable;
      Elsewhere(me);
      var known := AskKnown();
      Tick(Act(me, 0, "", known));
      if known.LookupKnown? {
        result := RecordBroadcast(me, call, token, prepared);
        return;
      } else if known.LookupBreaks? {
        return Err(INTERNAL);
      }
      var outcome := GiveUp(me, call, token, prepared);
      return Err(outcome);
    }

    /** Marked rejected first, then the inputs of the record are unlocked. */
    method GiveUp(ghost me: nat, call: Call, token: string, prepared: PreparedBroadcast) returns (outcome: Outcome)
      requires Valid() && Here(me, call, token, Rejecting(prepared))
      modifies this`world, store
      ensures Valid() && Ended(me, outcome)
    {
      hide Inv, Reachable;
      Elsewhere(me);
      var now := Clock();
      var marked := store.MarkPreparedFailed(call.key, token, 409, "MEMPOOL_REJECTED",
                                             "Bitcoin Core rejected the prepared transaction.", now);
      Tick(Act(me, now, "", Quiet));
      if marked != Stored {
        return CLAIM_LOST;
      }
      outcome := UnlockRejected(me, call, token, prepared);
    }

    method UnlockRejected(ghost me: nat, call: Call, token: string, prepared: PreparedBroadcast)
      returns (outcome: Outcome)
      requires Valid() && Here(me, call, token, UnlockingRejected(prepared))
      modifies this`world, store
      ensures Valid() && Ended(me, outcome)
    {
      hide Inv, Reachable;
      Elsewhere(me);
      Tick(Act(me, 0, "", Quiet));
      return Failed(409, "MEMPOOL_REJECTED");
    }

    method Broadcast(ghost me: nat, call: Call, token: string, prepared: PreparedBroadcast)
      returns (result: Result<PreparedBroadcast, Outcome>)
      requires Valid() && Here(me, call, token, Sending(prepared))
      modifies this`world, store
      ensures Valid()
      ensures match result
        case Ok(p) => p == prepared && Ready(me, call, token, p)
        case Err(outcome) => Ended(me, outcome)
    {
      hide Inv, Reachable;
      var sent := Transmit(me, call, token, prepared);
      if sent.SendRaises? {
        return Err(Failed(400, "INVALID_TXID"));
      } else if sent.SendBreaks? {
        result := Doubt(me, call, token, prepared, sent.rpcStatus, sent.error);
      } else {
        result := CompareTxid(me, call, token, prepared, sent.txid);
      }
    }

    /** The one place where bytes leave for the network. */
    method Transmit(ghost me: nat, call: Call, token: string, prepared: PreparedBroadcast) returns (sent: Answer)
      requires Valid() && Here(me, call, token, Sending(prepared))
      modifies this`world, store
      ensures Valid() && Fits(Sending(prepared), sent)
      ensures |world.history| > 0 && world.history[|world.history| - 1].Sent?
      ensures world.history[|world.history| - 1].rawTx == prepared.rawTx
      ensures sent.SendRaises? ==> Ended(me, Failed(400, "INVALID_TXID"))
      ensures sent.SendBreaks? ==> Here(me, call, token, LookingUpFailed(prepared, sent.rpcStatus, sent.error))
      ensures sent.SendReturns? ==> Here(me, call, token,
                                         if sent.txid == prepared.expectedTxid then MarkingBroadcast(prepared)
                                         else MarkingUnknown(prepared, "Bitcoin Core returned a different txid",
                                                             Failed(502, "BROADCAST_TXID_MISMATCH")))
    {
      hide Inv, Reachable;
      Elsewhere(me);
      sent := AskSend(prepared.rawTx);
      SubmissionStep(store.cfg, world, me, sent);
      Tick(Act(me, 0, "", sent));
    }

    method CompareTxid(ghost me: nat, call: Call, token: string, prepared: PreparedBroadcast, txid: string)
      returns (result: Result<PreparedBroadcast, Outcome>)
      requires Valid() && Here(me, call, token,
                               if txid == prepared.expectedTxid then MarkingBroadcast(prepared)
                               else MarkingUnknown(prepared, "Bitcoin Core returned a different txid",
                                                   Failed(502, "BROADCAST_TXID_MISMATCH")))
      modifies this`world, store
      ensures Valid()
      ensures match result
        case Ok(p) => p == prepared && Ready(me, call, token, p)
        case Err(outcome) => Ended(me, outcome)
    {
      hide Inv, Reachable;
      if txid == prepared.expectedTxid {
        result := RecordBroadcast(me, call, token, prepared);
      } else {
        var outcome := RecordUnknown(me, call, token, prepared, "Bitcoin Core returned a different txid",
                                     Failed(502, "BROADCAST_TXID_MISMATCH"));
        result := Err(outcome);
      }
    }

    /** The submission broke: it may or may not have reached the node. */
    method Doubt(ghost me: nat, call: Call, token: string, prepared: PreparedBroadcast, status: int, error: string)
      returns (result: Result<PreparedBroadcast, Outcome>)
      requires Valid() && Here(me, call, token, LookingUpFailed(prepared, status, error))
      modifies this`world, store
      ensures Valid()
      ensures match result
        case Ok(p) => p == prepared && Ready(me, call, token, p)
        case Err(outcome) => Ended(me, outcome)
    {
      hide Inv, Reachable;
      Elsewhere(me);
      var known := AskKnown();
      Tick(Act(me, 0, "", known));
      if known.LookupKnown? {
        result := RecordBroadcast(me, call, token, prepared);
      } else if known.LookupBreaks? {
        result := Err(INTERNAL);
      } else {
        var outcome := RecordUnknown(me, call, token, prepared, error,
                                     Failed(if status < 500 then 503 else status, "BROADCAST_RESULT_UNKNOWN"));
        result := Err(outcome);
      }
    }

    method RecordUnknown(ghost me: nat, call: Call, token: string, prepared: PreparedBroadcast, error: string,
                         failure: Outcome) returns (outcome: Outcome)
      requires Valid() && Here(me, call, token, MarkingUnknown(prepared, error, failure))
      modifies this`world, store
      ensures Valid() && Ended(me, outcome)
    {
      hide Inv, Reachable;
      Elsewhere(me);
      var now := Clock();
      var marked := store.MarkUnknown(call.key, token, prepared.expectedTxid, error, now);
      Tick(Act(me, now, "", Quiet));
      outcome := if marked == Stored then failure else CLAIM_LOST;
    }
  }
}
