/** Every step of the Bitcoin send protocol keeps its invariant. */
module BitcoinSendSteps {
  import opened Prelude
  import opened Json
  import opened BitcoinStore
  import opened BitcoinStoreProofs
  import opened BitcoinSend
  import opened BitcoinSendInvariant

  /** The worker is at a store call, and may make it. */
  ghost predicate Calls(s: World, id: nat, op: Op) {
    && id in s.workers && (exists drawn :: OpAt(s.workers[id], drawn) == Some(op))
    && (op.ClaimOp? ==> op.drawn != "" && op.drawn !in s.issued)
  }

  /** The token a call works under, or the one it draws. */
  function TokensOf(w: Worker, op: Op): set<string> {
    if op.ClaimOp? then {op.drawn} else if w.token.Some? then {w.token.value} else {}
  }

  lemma WorkerIsOk(s: World, id: nat)
    requires Inv(s) && id in s.workers
    ensures WorkerOk(s, s.workers[id])
  {
    hide DbOk, TokensKnown, OriginOk, SuccessesOk, HistoryOk, WorkerOk;
  }

  lemma CallIsSensible(s: World, id: nat, op: Op)
    requires Inv(s) && Calls(s, id, op)
    ensures Sensible(op) && op == OpAt(s.workers[id], if op.ClaimOp? then op.drawn else "").value
    ensures !op.PruneOp? && !op.RecordOp? && !op.MarkFailedOp? && op.key == s.workers[id].call.key
    ensures !op.ClaimOp? && !op.LoadPreparedOp? ==>
      s.workers[id].token.Some? && ActsFor(op, op.key, s.workers[id].token.value)
  {
    hide Inv, TokenLink, CarriedOk, LocksOk;
    WorkerIsOk(s, id);
  }

  /** Rows are either left alone or end up under a token of this call, or under none. */
  lemma ExecTouches(cfg: Config, db: Db, op: Op, now: int, tokens: set<string>)
    requires !op.PruneOp?
    requires op.ClaimOp? ==> op.drawn in tokens
    requires !op.ClaimOp? && !op.LoadPreparedOp? && !op.RecordOp? ==> exists t :: t in tokens && ActsFor(op, op.key, t)
    ensures var db' := Exec(cfg, db, op, now).0;
      forall k :: k in db'.rows ==>
        || (k in db.rows && db'.rows[k] == db.rows[k] && !(op.ClaimOp? && op.key == k && db.rows[k].expiresAt <= now))
        || (k == KeyOf(op) && (db'.rows[k].claimToken.Some? ==> db'.rows[k].claimToken.value in tokens))
  {
  }

  /** A call's effect on the tables, as far as it can concern others. */
  lemma ExecHarmless(cfg: Config, s: World, s': World, op: Op, now: int, tokens: set<string>)
    requires DbOk(s.db) && s'.db == Exec(cfg, s.db, op, now).0
    requires s.issued <= s'.issued && s'.lives == NextLives(s, op, now)
    requires forall r :: r in s.origin ==> r in s'.origin && s'.origin[r] == s.origin[r]
    requires !op.PruneOp? && !op.RecordOp? && (op.ClaimOp? ==> op.drawn in tokens)
    requires op.ClaimOp? || op.LoadPreparedOp? || exists t :: t in tokens && ActsFor(op, op.key, t)
    ensures Harmless(s, s', tokens)
  {
    RecordsImmutable(cfg, s.db, op, now);
    ExecTouches(cfg, s.db, op, now, tokens);
  }

  lemma OriginsExtend(cfg: Config, s: World, id: nat, op: Op, now: int)
    requires DbOk(s.db) && OriginOk(s) && id in s.workers
    ensures var s' := StoreAct(cfg, s, id, op, now);
      forall r :: r in s.origin ==> r in s'.origin && s'.origin[r] == s.origin[r]
  {
    assert s.db.lastRecordId + 1 !in s.db.records;
  }

  lemma StoreActHarmless(cfg: Config, s: World, id: nat, op: Op, now: int)
    requires Inv(s) && Calls(s, id, op)
    ensures Harmless(s, StoreAct(cfg, s, id, op, now), TokensOf(s.workers[id], op))
  {
    CallIsSensible(s, id, op);
    OriginsExtend(cfg, s, id, op, now);
    ExecHarmless(cfg, s, StoreAct(cfg, s, id, op, now), op, now, TokensOf(s.workers[id], op));
  }

  // ------------------------------------------------------------ tables

  /** What a call can do to the link between a row and its record. */
  lemma LinksKept(cfg: Config, db: Db, op: Op, now: int, k: string)
    requires k in Exec(cfg, db, op, now).0.rows
    ensures var db' := Exec(cfg, db, op, now).0;
      || (k in db.rows && db'.rows[k].preparedRecordId == db.rows[k].preparedRecordId
          && !(op.ClaimOp? && op.key == k && db.rows[k].expiresAt <= now))
      || (op.ClaimOp? && op.key == k && (k in db.rows ==> db.rows[k].expiresAt <= now)
          && db'.rows[k].preparedRecordId == None)
      || (op.SavePreparedOp? && op.key == k && db' != db && k in db.rows && db.rows[k].preparedRecordId == None
          && OwnedBy(db, k, op.token)
          && db'.lastRecordId == db.lastRecordId + 1 && db'.rows[k].preparedRecordId == Some(db'.lastRecordId))
  {
  }

  /** Persisting a record: the world afterwards, seen from the records. */
  lemma OriginAfterSave(s: World, s': World, k: string)
    requires OriginOk(s) && DbOk(s.db) && k in s.db.rows && s.db.rows[k].preparedRecordId == None
    requires s'.lives == s.lives && s'.origin == s.origin[s'.db.lastRecordId := Life(k, LifeOf(s.lives, k))]
    requires s'.db.lastRecordId == s.db.lastRecordId + 1 && s'.db.rows.Keys == s.db.rows.Keys
    requires s'.db.records.Keys == s.db.records.Keys + {s'.db.lastRecordId}
    requires s'.db.rows[k].preparedRecordId == Some(s'.db.lastRecordId)
    requires forall l :: l in s.db.rows && l != k ==> s'.db.rows[l] == s.db.rows[l]
    ensures OriginOk(s')
  {
    hide RowOk;
    var fresh' := s'.db.lastRecordId;
    assert PointsToOwn(s, k);
    assert fresh' !in s.origin;
    NewLink(s, s', k);
    forall l | l in s'.db.rows && l != k
      ensures PointsToOwn(s', l)
    {
      assert PointsToOwn(s, l);
      LinkStays(s, s', fresh', k, l);
    }
  }

  lemma NewLink(s: World, s': World, k: string)
    requires k in s'.db.rows && s'.db.rows[k].preparedRecordId == Some(s'.db.lastRecordId)
    requires s'.lives == s.lives && s'.origin == s.origin[s'.db.lastRecordId := Life(k, LifeOf(s.lives, k))]
    ensures PointsToOwn(s', k)
  {
  }

  /** A record of another key's life does not touch this key's link. */
  lemma LinkStays(s: World, s': World, id: nat, k: string, l: string)
    requires l in s.db.rows && l in s'.db.rows && s'.db.rows[l].preparedRecordId == s.db.rows[l].preparedRecordId
    requires PointsToOwn(s, l) && l != k && id !in s.origin
    requires s'.lives == s.lives && s'.origin == s.origin[id := Life(k, LifeOf(s.lives, k))]
    ensures PointsToOwn(s', l)
  {
  }

  /** Any other call: rows keep their links, or start a life without one. */
  lemma OriginAfterOther(s: World, s': World, begun: set<string>)
    requires OriginOk(s) && s'.origin == s.origin
    requires forall id :: id in s.db.records ==> id in s'.db.records
    requires forall k :: LifeOf(s'.lives, k) >= LifeOf(s.lives, k)
    requires forall k :: k in begun ==> LifeOf(s'.lives, k) > LifeOf(s.lives, k)
    requires forall k :: k in s'.db.rows ==>
      || (k in begun && s'.db.rows[k].preparedRecordId == None)
      || (k in s.db.rows && s'.db.rows[k].preparedRecordId == s.db.rows[k].preparedRecordId
          && LifeOf(s'.lives, k) == LifeOf(s.lives, k))
    ensures OriginOk(s')
  {
    forall k | k in s'.db.rows
      ensures PointsToOwn(s', k)
    {
      if k !in begun { assert PointsToOwn(s, k); }
    }
  }

  lemma OriginKept(cfg: Config, s: World, id: nat, op: Op, now: int)
    requires Inv(s) && Calls(s, id, op)
    ensures OriginOk(StoreAct(cfg, s, id, op, now))
  {
    hide Inv, TokenLink, CarriedOk, LocalOk, OriginOk;
    WorkerIsOk(s, id);
    CallIsSensible(s, id, op);
    assert DbOk(s.db) && OriginOk(s) by { OriginsOk(s); }
    if op.SavePreparedOp? && Exec(cfg, s.db, op, now).0 != s.db {
      OriginAfterSaving(cfg, s, id, op, now);
    } else {
      OriginAfterAnyOther(cfg, s, id, op, now);
    }
  }

  lemma OriginsOk(s: World)
    requires Inv(s)
    ensures DbOk(s.db) && OriginOk(s)
  {
    hide DbOk, TokensKnown, OriginOk, SuccessesOk, HistoryOk, WorkersOk;
  }

  lemma TablesOk(s: World)
    requires Inv(s)
    ensures DbOk(s.db) && TokensKnown(s.db, s.issued) && SuccessesOk(s) && HistoryOk(s)
  {
    hide DbOk, TokensKnown, OriginOk, SuccessesOk, HistoryOk, WorkersOk;
  }

  lemma OriginAfterSaving(cfg: Config, s: World, id: nat, op: Op, now: int)
    requires DbOk(s.db) && OriginOk(s) && id in s.workers && TokenLink(s, s.workers[id])
    requires op.SavePreparedOp? && Exec(cfg, s.db, op, now).0 != s.db
    requires s.workers[id].token == Some(op.token) && op.key == s.workers[id].call.key
    ensures OriginOk(StoreAct(cfg, s, id, op, now))
  {
    hide OriginOk, DbOk, AfterStore, RowAwaits;
    OriginAfterSave(s, StoreAct(cfg, s, id, op, now), op.key);
  }

  lemma OriginAfterAnyOther(cfg: Config, s: World, id: nat, op: Op, now: int)
    requires DbOk(s.db) && OriginOk(s) && id in s.workers && !op.PruneOp? && !op.RecordOp?
    requires !(op.SavePreparedOp? && Exec(cfg, s.db, op, now).0 != s.db)
    ensures OriginOk(StoreAct(cfg, s, id, op, now))
  {
    hide OriginOk, DbOk, AfterStore, Exec;
    var s' := StoreAct(cfg, s, id, op, now);
    forall k | k in s'.db.rows { LinksKept(cfg, s.db, op, now, k); }
    RecordsImmutable(cfg, s.db, op, now);
    OriginAfterOther(s, s', if op.ClaimOp? && s'.lives != s.lives then {op.key} else {});
  }

  /** A settled row is out of reach of every call except a claim that finds it expired. */
  lemma SettledRowStays(cfg: Config, db: Db, op: Op, now: int, k: string)
    requires DbOk(db) && k in db.rows && Settled(db.rows[k].state) && k in Exec(cfg, db, op, now).0.rows
    requires Sensible(op)
    ensures var db' := Exec(cfg, db, op, now).0;
      || (op.ClaimOp? && op.key == k && !Settled(db'.rows[k].state))
      || (db'.rows[k] == db.rows[k]
          && (db.rows[k].preparedRecordId.Some? ==>
                db'.records[db.rows[k].preparedRecordId.value] == db.records[db.rows[k].preparedRecordId.value]))
  {
    hide Exec, DbOk;
    if EndsRow(db, op, now, k) {
      OnlyPrunedOrRenewed(cfg, db, op, now, k);
    } else {
      SettledStep(cfg, db, op, now, k);
      if db.rows[k].preparedRecordId.Some? { SettledRecordStays(cfg, db, op, now, k); }
    }
  }

  lemma OnlyPrunedOrRenewed(cfg: Config, db: Db, op: Op, now: int, k: string)
    requires EndsRow(db, op, now, k) && k in Exec(cfg, db, op, now).0.rows
    ensures op.ClaimOp? && op.key == k && !Settled(Exec(cfg, db, op, now).0.rows[k].state)
  {
  }

  lemma SettledRecordStays(cfg: Config, db: Db, op: Op, now: int, k: string)
    requires DbOk(db) && k in db.rows && Settled(db.rows[k].state) && db.rows[k].preparedRecordId.Some?
    ensures var id := db.rows[k].preparedRecordId.value;
      id in db.records && id in Exec(cfg, db, op, now).0.records
      && Exec(cfg, db, op, now).0.records[id] == db.records[id]
  {
    assert RowOk(db.rows[k], db.records);
    assert db.lastRecordId + 1 !in db.records;
  }

  /** Which call makes a row succeed: the owner's response, and it writes exactly the body it was given. */
  lemma SucceedsOnlyByResponse(cfg: Config, db: Db, op: Op, now: int, k: string)
    requires k in Exec(cfg, db, op, now).0.rows && Exec(cfg, db, op, now).0.rows[k].state == Succeeded
    ensures var db' := Exec(cfg, db, op, now).0;
      || (k in db.rows && db.rows[k].state == Succeeded)
      || (op.StoreResponseOp? && op.key == k && OwnedBy(db, k, op.token) && db.rows[k].scope == op.scope
          && db'.records == db.records
          && db'.rows[k].response == op.body && db'.rows[k].preparedRecordId == db.rows[k].preparedRecordId
          && db'.rows[k].paymentHash == db.rows[k].paymentHash && db'.rows[k].scope == db.rows[k].scope)
  {
  }

  /** Only the row's own calls move its record's status, so a settled success stays as it is. */
  lemma SuccessStays(cfg: Config, db: Db, op: Op, now: int, k: string)
    requires DbOk(db) && Sensible(op) && k in db.rows && db.rows[k].state == Succeeded
    requires SuccessOk(db.rows[k], db.records) && k in Exec(cfg, db, op, now).0.rows
    ensures SuccessOk(Exec(cfg, db, op, now).0.rows[k], Exec(cfg, db, op, now).0.records)
  {
    SettledRowStays(cfg, db, op, now, k);
  }

  /** A success that arises on the send route arises from a worker at its last step. */
  lemma SuccessArises(s: World, w: Worker, op: Op, k: string)
    requires TokenLink(s, w) && LocalOk(w) && op.StoreResponseOp? && OpAt(w, "") == Some(op)
    requires w.token.Some? && OwnedBy(s.db, k, w.token.value) && RowOk(s.db.rows[k], s.db.records)
    requires SendRoute(s.db.rows[k].scope)
    ensures s.db.rows[k].preparedRecordId.Some?
    ensures var id := s.db.rows[k].preparedRecordId.value;
      && id in s.db.records && s.db.records[id].status == TxBroadcast
      && s.db.rows[k].paymentHash == Some(s.db.records[id].txid) && TxidIn(op.body) == Str(s.db.records[id].txid)
  {
  }

  lemma SuccessesKept(cfg: Config, s: World, id: nat, op: Op, now: int)
    requires DbOk(s.db) && SuccessesOk(s) && Sensible(op)
    requires id in s.workers && TokenLink(s, s.workers[id]) && LocalOk(s.workers[id])
    requires op.StoreResponseOp? ==> OpAt(s.workers[id], "") == Some(op) && s.workers[id].token == Some(op.token)
    ensures SuccessesOk(StoreAct(cfg, s, id, op, now))
  {
    var db' := Exec(cfg, s.db, op, now).0;
    forall k | k in db'.rows && db'.rows[k].state == Succeeded
      ensures SuccessOk(db'.rows[k], db'.records)
    {
      SucceedsOnlyByResponse(cfg, s.db, op, now, k);
      if k in s.db.rows && s.db.rows[k].state == Succeeded {
        SuccessStays(cfg, s.db, op, now, k);
      } else if SendRoute(db'.rows[k].scope) {
        SuccessArises(s, s.workers[id], op, k);
      }
    }
  }

  /** The event a commit appends, and none otherwise. */
  lemma HistoryAfter(s: World, s': World, news: seq<Event>)
    requires HistoryOk(s) && s'.history == s.history + news && |news| <= 1
    requires forall r :: r in s.db.records ==> r in s'.db.records && SameTx(s.db.records[r], s'.db.records[r])
    requires forall r :: r in s.origin ==> r in s'.origin && s'.origin[r] == s.origin[r] && r in s.db.records
    requires forall r :: r in s'.origin && r !in s.origin ==>
      r in s'.db.records && news == [Persisted(r, s'.origin[r], s'.db.records[r].rawTx)]
    requires news == [] || (news[0].Persisted? && news[0].recordId in s'.origin && news[0].recordId !in s.origin)
    ensures HistoryOk(s')
  {
    forall i | 0 <= i < |s'.history|
      ensures EventOk(s', i)
    {
      if i < |s.history| {
        assert EventOk(s, i);
        assert s'.history[..i] == s.history[..i];
      }
    }
    forall r | r in s'.origin && r in s'.db.records
      ensures Persisted(r, s'.origin[r], s'.db.records[r].rawTx) in s'.history
    {
      if r in s.origin {
        assert Persisted(r, s.origin[r], s.db.records[r].rawTx) in s.history;
      } else {
        assert s'.history[|s.history|] == news[0];
      }
    }
  }

  /** Persisting inserts the draft under the next record number. */
  lemma SaveInserts(cfg: Config, db: Db, op: Op, now: int)
    requires op.SavePreparedOp? && Exec(cfg, db, op, now).0 != db
    ensures var db' := Exec(cfg, db, op, now).0;
      db'.lastRecordId == db.lastRecordId + 1 && db'.lastRecordId in db'.records
      && db'.records[db'.lastRecordId].rawTx == op.draft.rawTx
  {
  }

  lemma HistoryKept(cfg: Config, s: World, id: nat, op: Op, now: int)
    requires DbOk(s.db) && OriginOk(s) && HistoryOk(s) && id in s.workers
    ensures HistoryOk(StoreAct(cfg, s, id, op, now))
  {
    hide AfterStore, Exec, HistoryOk;
    var s' := StoreAct(cfg, s, id, op, now);
    RecordsImmutable(cfg, s.db, op, now);
    if op.SavePreparedOp? && s'.db != s.db {
      SaveInserts(cfg, s.db, op, now);
      assert s.db.lastRecordId + 1 !in s.db.records;
    }
    HistoryAfter(s, s', s'.history[|s.history|..]);
  }

  // ------------------------------------------------------------ the acting worker

  /** The worker's bookkeeping after a reply; a save that is answered at all has written a record. */
  lemma LocalAfterStore(w: Worker, drawn: string, reply: Reply, life: nat, wrote: bool)
    requires LocalOk(w) && OpAt(w, drawn).Some?
    requires w.pc.Claiming? ==> reply.Claim? || reply.Replay? || reply.Refused?
    requires w.pc.Saving? ==> (reply.Loaded? && wrote) || reply.Refused?
    ensures LocalOk(AfterStore(w, reply, life, wrote))
  {
    LocksAfterStore(w, drawn, reply, life, wrote);
    RouteAfterStore(w, drawn, reply, life, wrote);
  }

  lemma LocksAfterStore(w: Worker, drawn: string, reply: Reply, life: nat, wrote: bool)
    requires LocksOk(w) && OpAt(w, drawn).Some?
    requires w.pc.Claiming? ==> reply.Claim? || reply.Replay? || reply.Refused?
    requires w.pc.Saving? ==> (reply.Loaded? && wrote) || reply.Refused?
    ensures LocksOk(AfterStore(w, reply, life, wrote))
  {
    if w.pc.Claiming? || w.pc.Loading? || w.pc.Saving? {
      LocksUntilSaved(w, reply, life, wrote);
    } else {
      LocksOnceSaved(w, drawn, reply, life, wrote);
    }
  }

  lemma LocksUntilSaved(w: Worker, reply: Reply, life: nat, wrote: bool)
    requires LocksOk(w) && (w.pc.Claiming? || w.pc.Loading? || w.pc.Saving?)
    requires w.pc.Claiming? ==> reply.Claim? || reply.Replay? || reply.Refused?
    requires w.pc.Saving? ==> (reply.Loaded? && wrote) || reply.Refused?
    ensures LocksOk(AfterStore(w, reply, life, wrote))
  {
    hide TagReplay, RefusalOutcome;
  }

  lemma LocksOnceSaved(w: Worker, drawn: string, reply: Reply, life: nat, wrote: bool)
    requires LocksOk(w) && OpAt(w, drawn).Some? && !w.pc.Claiming? && !w.pc.Loading? && !w.pc.Saving?
    ensures LocksOk(AfterStore(w, reply, life, wrote))
  {
    hide LocksOk;
    if w.pc.Heartbeating? || w.pc.Rejecting? {
      LocksWhileCarried(w, reply, life, wrote);
    } else {
      LocksAtTheEnd(w, reply, life, wrote);
    }
  }

  lemma LocksWhileCarried(w: Worker, reply: Reply, life: nat, wrote: bool)
    requires LocksOk(w) && (w.pc.Heartbeating? || w.pc.Rejecting?)
    ensures LocksOk(AfterStore(w, reply, life, wrote))
  {
  }

  lemma LocksAtTheEnd(w: Worker, reply: Reply, life: nat, wrote: bool)
    requires LocksOk(w) && (w.pc.MarkingUnknown? || w.pc.MarkingBroadcast? || w.pc.Responding?)
    ensures LocksOk(AfterStore(w, reply, life, wrote))
  {
    hide OkBody, BroadcastResult;
  }

  lemma RouteAfterStore(w: Worker, drawn: string, reply: Reply, life: nat, wrote: bool)
    requires LocalOk(w) && OpAt(w, drawn).Some?
    requires w.pc.Claiming? ==> reply.Claim? || reply.Replay? || reply.Refused?
    requires w.pc.Saving? ==> reply.Loaded? || reply.Refused?
    requires LocksOk(AfterStore(w, reply, life, wrote))
    ensures LocalOk(AfterStore(w, reply, life, wrote))
  {
    hide OkBody, BroadcastResult, TagReplay, RefusalOutcome;
  }

  lemma LocksAfterSubmission(w: Worker, answer: Answer)
    requires LocksOk(w) && Fits(w.pc, answer) && (w.pc.Sending? || w.pc.UnlockingRejected? || w.pc.Working?)
    ensures LocksOk(AfterRail(w, answer))
  {
  }

  lemma LocksAfterQuestion(w: Worker, answer: Answer)
    requires LocksOk(w) && Fits(w.pc, answer) && Carries(w.pc) && !w.pc.Sending? && !w.pc.UnlockingRejected?
    ensures LocksOk(AfterRail(w, answer))
  {
  }

  lemma LocksAfterPreparation(w: Worker, answer: Answer)
    requires LocksOk(w) && Fits(w.pc, answer) && (w.pc.Checking? || Preparing(w.pc) || w.pc.Unlocking?)
    ensures LocksOk(AfterRail(w, answer))
  {
  }

  lemma LocksAfterRail(w: Worker, answer: Answer)
    requires LocksOk(w) && Fits(w.pc, answer)
    ensures LocksOk(AfterRail(w, answer))
  {
    if w.pc.Sending? || w.pc.UnlockingRejected? || w.pc.Working? {
      LocksAfterSubmission(w, answer);
    } else if Carries(w.pc) {
      LocksAfterQuestion(w, answer);
    } else {
      LocksAfterPreparation(w, answer);
    }
  }

  lemma RouteAfterRail(w: Worker, answer: Answer)
    requires LocalOk(w) && Fits(w.pc, answer)
    ensures LocksOk(AfterRail(w, answer)) ==> LocalOk(AfterRail(w, answer))
  {
  }

  lemma LocalAfterRail(w: Worker, answer: Answer)
    requires LocalOk(w) && Fits(w.pc, answer)
    ensures LocalOk(AfterRail(w, answer))
  {
    LocksAfterRail(w, answer);
    RouteAfterRail(w, answer);
  }

  /** While the worker owns the row, nobody else has attached a record since its load came back empty. */
  lemma SaveFindsNothing(s: World, id: nat)
    requires Inv(s) && id in s.workers && s.workers[id].pc.Saving? && s.workers[id].token.Some?
    requires OwnedBy(s.db, s.workers[id].call.key, s.workers[id].token.value)
    ensures var row := s.db.rows[s.workers[id].call.key];
      row.preparedRecordId.None? && row.state == State.Claimed && row.requestHash == s.workers[id].call.hash
  {
    assert TokenLink(s, s.workers[id]);
    assert RowOk(s.db.rows[s.workers[id].call.key], s.db.records);
  }

  /** The save either is refused or writes: the branch that hands back an earlier record is never taken. */
  lemma SaveWritesOrLoses(cfg: Config, s: World, id: nat, op: Op, now: int)
    requires Inv(s) && Calls(s, id, op) && op.SavePreparedOp?
    ensures var (db', reply) := Exec(cfg, s.db, op, now); (reply.Loaded? && db' != s.db) || reply.Refused?
  {
    hide Inv, OpAt;
    CallIsSensible(s, id, op);
    SavingCall(s, id, op);
    if OwnedBy(s.db, op.key, op.token) {
      SaveFindsNothing(s, id);
      SavedRowDiffers(cfg, s.db, op, now);
    }
  }

  /** A worker that saves saves its draft under its own token. */
  lemma SavingCall(s: World, id: nat, op: Op)
    requires Calls(s, id, op) && op.SavePreparedOp?
    ensures var w := s.workers[id];
      w.pc.Saving? && op.key == w.call.key && op.hash == w.call.hash && op.draft == w.pc.draft
  {
  }

  lemma SavedRowDiffers(cfg: Config, db: Db, op: Op, now: int)
    requires op.SavePreparedOp? && OwnedBy(db, op.key, op.token) && db.rows[op.key].requestHash == op.hash
    requires db.rows[op.key].preparedRecordId.None? && db.rows[op.key].state == State.Claimed
    ensures Exec(cfg, db, op, now).0 != db && Exec(cfg, db, op, now).1.Loaded?
  {
    assert Exec(cfg, db, op, now).0.lastRecordId != db.lastRecordId;
  }

  lemma ActorLocal(cfg: Config, s: World, id: nat, op: Op, now: int)
    requires Inv(s) && Calls(s, id, op)
    ensures LocalOk(StoreAct(cfg, s, id, op, now).workers[id])
  {
    var w := s.workers[id];
    CallIsSensible(s, id, op);
    var (db', reply) := Exec(cfg, s.db, op, now);
    if op.SavePreparedOp? {
      SaveWritesOrLoses(cfg, s, id, op, now);
    }
    assert LocalOk(w);
    LocalAfterStore(w, if op.ClaimOp? then op.drawn else "", reply, LifeOf(NextLives(s, op, now), w.call.key),
                    op.SavePreparedOp? && db' != s.db);
  }

  /** A row still under the owner's token after its call was under it before, for the same request. */
  lemma OwnedRowWas(cfg: Config, db: Db, op: Op, now: int, token: string, k: string)
    requires !op.ClaimOp? && !op.RecordOp? && !op.PruneOp?
    requires op.LoadPreparedOp? || ActsFor(op, op.key, token)
    requires k in Exec(cfg, db, op, now).0.rows && Exec(cfg, db, op, now).0.rows[k].claimToken == Some(token)
    ensures var db' := Exec(cfg, db, op, now).0;
      && k in db.rows && db.rows[k].claimToken == Some(token)
      && db'.rows[k].scope == db.rows[k].scope && db'.rows[k].requestHash == db.rows[k].requestHash
  {
  }

  lemma TokenAfterClaim(cfg: Config, s: World, id: nat, op: Op, now: int)
    requires id in s.workers && TokensKnown(s.db, s.issued) && TokenLink(s, s.workers[id]) && LocalOk(s.workers[id])
    requires Calls(s, id, op) && op.ClaimOp? && op.key == s.workers[id].call.key
    requires s.workers[id].pc.Claiming? && op.scope == s.workers[id].call.scope && op.hash == s.workers[id].call.hash
    ensures TokenLink(StoreAct(cfg, s, id, op, now), StoreAct(cfg, s, id, op, now).workers[id])
  {
    assert forall k :: k in s.db.rows ==> s.db.rows[k].claimToken != Some(op.drawn);
  }

  lemma ResultNamesTxid(p: PreparedBroadcast, requestId: string)
    ensures TxidIn(OkBody(BroadcastResult(p), requestId)) == Str(p.expectedTxid)
  {
    var data := BroadcastResult(p);
    var body := OkBody(data, requestId);
    assert Get(body.fields, "data") == Get(body.fields[1..], "data") == data;
    assert Get(data.fields, "txid") == Get(data.fields[1..], "txid") == Get(data.fields[1..][1..], "txid");
  }

  /** What the worker's own row looks like after a call that leaves it with the worker. */
  lemma AwaitedRow(cfg: Config, db: Db, w: Worker, op: Op, now: int, life: nat)
    requires w.token.Some? && OpAt(w, "") == Some(op) && !op.ClaimOp? && !op.LoadPreparedOp?
    requires OwnedBy(db, w.call.key, w.token.value)
    requires w.call.key in Exec(cfg, db, op, now).0.rows
    ensures var (db', reply) := Exec(cfg, db, op, now);
      db'.rows[w.call.key].claimToken == w.token ==>
        RowAwaits(AfterStore(w, reply, life, op.SavePreparedOp? && db' != db).pc, db'.rows[w.call.key])
  {
    hide Exec, AfterStore, RowAwaits;
    if op.MarkBroadcastOp? {
      AwaitedAfterBroadcast(cfg, db, w, op, now, life);
    } else if op.SavePreparedOp? {
      AwaitedAfterSave(cfg, db, w, op, now, life);
    } else {
      AwaitsNothing(w, Exec(cfg, db, op, now).1, life, Exec(cfg, db, op, now).0.rows[w.call.key]);
    }
  }

  lemma AwaitsNothing(w: Worker, reply: Reply, life: nat, row: Row)
    requires w.pc.Heartbeating? || w.pc.Rejecting? || w.pc.MarkingUnknown? || w.pc.Responding?
    ensures RowAwaits(AfterStore(w, reply, life, false).pc, row)
  {
    hide TxidIn;
  }

  lemma AwaitedAfterSave(cfg: Config, db: Db, w: Worker, op: Op, now: int, life: nat)
    requires w.token.Some? && OpAt(w, "") == Some(op) && op.SavePreparedOp? && OwnedBy(db, w.call.key, w.token.value)
    ensures var (db', reply) := Exec(cfg, db, op, now);
      w.call.key in db'.rows && RowAwaits(AfterStore(w, reply, life, db' != db).pc, db'.rows[w.call.key])
  {
    hide TxidIn;
  }

  lemma AwaitedAfterBroadcast(cfg: Config, db: Db, w: Worker, op: Op, now: int, life: nat)
    requires w.token.Some? && OpAt(w, "") == Some(op) && op.MarkBroadcastOp?
    requires OwnedBy(db, w.call.key, w.token.value)
    ensures var (db', reply) := Exec(cfg, db, op, now);
      w.call.key in db'.rows && RowAwaits(AfterStore(w, reply, life, false).pc, db'.rows[w.call.key])
  {
    hide OkBody, BroadcastResult, TxidIn, SetRecordStatus;
    ResultNamesTxid(w.pc.prepared, w.call.requestId);
  }

  lemma AwaitedRowAfterLoad(cfg: Config, db: Db, w: Worker, op: Op, now: int, life: nat)
    requires w.token.Some? && OpAt(w, "") == Some(op) && op.LoadPreparedOp?
    requires OwnedBy(db, w.call.key, w.token.value) && db.rows[w.call.key].requestHash == w.call.hash
    requires RowOk(db.rows[w.call.key], db.records)
    ensures RowAwaits(AfterStore(w, Exec(cfg, db, op, now).1, life, false).pc, db.rows[w.call.key])
  {
  }

  lemma TokenAfterOther(cfg: Config, s: World, id: nat, op: Op, now: int)
    requires id in s.workers && DbOk(s.db) && TokenLink(s, s.workers[id]) && s.workers[id].token.Some?
    requires OpAt(s.workers[id], "") == Some(op) && !op.ClaimOp? && op.key == s.workers[id].call.key
    requires op.LoadPreparedOp? || ActsFor(op, op.key, s.workers[id].token.value)
    ensures TokenLink(StoreAct(cfg, s, id, op, now), StoreAct(cfg, s, id, op, now).workers[id])
  {
    var w, s' := s.workers[id], StoreAct(cfg, s, id, op, now);
    assert s'.workers[id].token == w.token && s'.workers[id].life == w.life && s'.workers[id].call == w.call;
    forall k | k in s'.db.rows && s'.db.rows[k].claimToken == w.token
      ensures k == w.call.key && s'.db.rows[k].scope == w.call.scope && s'.db.rows[k].requestHash == w.call.hash
      ensures w.life == LifeOf(s'.lives, k) && RowAwaits(s'.workers[id].pc, s'.db.rows[k])
    {
      OwnedRowWas(cfg, s.db, op, now, w.token.value, k);
      if op.LoadPreparedOp? {
        AwaitedRowAfterLoad(cfg, s.db, w, op, now, LifeOf(s'.lives, w.call.key));
      } else {
        AwaitedRow(cfg, s.db, w, op, now, LifeOf(s'.lives, w.call.key));
      }
    }
  }

  /** A loaded record is the key's, and of the present life, which is not before the worker's. */
  lemma LoadedRecord(s: World, w: Worker)
    requires DbOk(s.db) && OriginOk(s) && TokenLink(s, w) && w.token.Some?
    requires LoadPrepared(s.db, w.call.key, w.call.hash).Loaded?
    ensures var p := LoadPrepared(s.db, w.call.key, w.call.hash).prepared;
      && p.recordId in s.db.records && p.recordId in s.origin && Matches(s.db.records[p.recordId], p)
      && s.origin[p.recordId].key == w.call.key && s.origin[p.recordId].number >= w.life
  {
    assert PointsToOwn(s, w.call.key);
  }

  lemma CarriedByLoading(s: World, w: Worker, life: nat)
    requires DbOk(s.db) && OriginOk(s) && TokenLink(s, w) && LocalOk(w) && w.pc.Loading?
    ensures CarriedOk(s, AfterStore(w, LoadPrepared(s.db, w.call.key, w.call.hash), life, false))
  {
    if LoadPrepared(s.db, w.call.key, w.call.hash).Loaded? {
      LoadedRecord(s, w);
    }
  }

  lemma CarriedAfterLoad(cfg: Config, s: World, id: nat, op: Op, now: int)
    requires Inv(s) && Calls(s, id, op) && op.LoadPreparedOp?
    ensures CarriedOk(StoreAct(cfg, s, id, op, now), StoreAct(cfg, s, id, op, now).workers[id])
  {
    hide Inv, CarriedOk, TokenLink, LocalOk, OriginOk, DbOk, AfterStore, LoadPrepared;
    var w, s' := s.workers[id], StoreAct(cfg, s, id, op, now);
    WorkerIsOk(s, id);
    OriginsOk(s);
    CarriedByLoading(s, w, LifeOf(s'.lives, w.call.key));
    SameTablesCarry(s, s', s'.workers[id]);
  }

  lemma SameTablesCarry(s: World, s': World, w: Worker)
    requires CarriedOk(s, w) && s'.db == s.db && s'.origin == s.origin
    ensures CarriedOk(s', w)
  {
  }

  lemma CarriedAfterSave(cfg: Config, s: World, id: nat, op: Op, now: int)
    requires Inv(s) && Calls(s, id, op) && op.SavePreparedOp?
    ensures CarriedOk(StoreAct(cfg, s, id, op, now), StoreAct(cfg, s, id, op, now).workers[id])
  {
    hide Inv, LocalOk, TokenLink, OriginOk, DbOk, OpAt, Exec;
    CallIsSensible(s, id, op);
    SavingCall(s, id, op);
    SaveWritesOrLoses(cfg, s, id, op, now);
    if Exec(cfg, s.db, op, now).0 != s.db {
      SaveInsertsDraft(cfg, s.db, op, now);
    }
  }

  lemma SaveInsertsDraft(cfg: Config, db: Db, op: Op, now: int)
    requires op.SavePreparedOp? && Exec(cfg, db, op, now).0 != db
    ensures var (db', reply) := Exec(cfg, db, op, now);
      && reply == Loaded(DraftPrepared(db'.lastRecordId, op.hash, op.draft))
      && db'.records == db.records[db'.lastRecordId := DraftRecord(op.key, op.hash, op.draft, now)]
  {
  }

  /** The heartbeat proves the row is still in the worker's life, so the carried record is too. */
  lemma CarriedAfterBeat(cfg: Config, s: World, id: nat, op: Op, now: int)
    requires Inv(s) && Calls(s, id, op) && op.HeartbeatOp?
    ensures CarriedOk(StoreAct(cfg, s, id, op, now), StoreAct(cfg, s, id, op, now).workers[id])
  {
    hide Inv, LocalOk, DbOk, RowAwaits;
    var w := s.workers[id];
    CallIsSensible(s, id, op);
    WorkerIsOk(s, id);
    OriginsOk(s);
    assert w.pc.Heartbeating?;
    var p := w.pc.prepared;
    assert s.origin[p.recordId].number <= LifeOf(s.lives, w.call.key);
  }

  /** A worker that goes on with what it carried still carries a committed record of its life. */
  lemma CarriedMoves(s: World, s': World, w: Worker, w': Worker)
    requires CarriedOk(s, w) && w'.call == w.call && w'.life == w.life
    requires Carries(w'.pc) ==> CarriesChecked(w.pc) && CarriesChecked(w'.pc) && w'.pc.prepared == w.pc.prepared
    requires forall r :: r in s.db.records ==> r in s'.db.records && SameTx(s.db.records[r], s'.db.records[r])
    requires forall r :: r in s.origin ==> r in s'.origin && s'.origin[r] == s.origin[r]
    ensures CarriedOk(s', w')
  {
  }

  lemma GoesOnCarrying(w: Worker, reply: Reply, life: nat, wrote: bool)
    requires !w.pc.Loading? && !w.pc.Saving? && !w.pc.Heartbeating? && OpAt(w, "").Some?
    ensures var w' := AfterStore(w, reply, life, wrote);
      && (Carries(w'.pc) ==> CarriesChecked(w.pc) && CarriesChecked(w'.pc) && w'.pc.prepared == w.pc.prepared)
      && (w.pc.Claiming? ==> !Carries(w'.pc))
  {
    hide AfterStore;
    if w.pc.Rejecting? {
      RejectingCarries(w, reply, life, wrote);
    } else {
      CarriesNoMore(w, reply, life, wrote);
    }
  }

  lemma RejectingCarries(w: Worker, reply: Reply, life: nat, wrote: bool)
    requires w.pc.Rejecting?
    ensures var w' := AfterStore(w, reply, life, wrote);
      Carries(w'.pc) ==> CarriesChecked(w'.pc) && w'.pc.prepared == w.pc.prepared
  {
  }

  lemma CarriesNoMore(w: Worker, reply: Reply, life: nat, wrote: bool)
    requires OpAt(w, "").Some? && !w.pc.Loading? && !w.pc.Saving? && !w.pc.Heartbeating? && !w.pc.Rejecting?
    ensures !Carries(AfterStore(w, reply, life, wrote).pc)
  {
    hide OkBody, BroadcastResult, TagReplay, RefusalOutcome;
  }

  lemma CarriedAfterOther(cfg: Config, s: World, id: nat, op: Op, now: int)
    requires Inv(s) && Calls(s, id, op)
    requires !op.LoadPreparedOp? && !op.SavePreparedOp? && !op.HeartbeatOp?
    ensures CarriedOk(StoreAct(cfg, s, id, op, now), StoreAct(cfg, s, id, op, now).workers[id])
  {
    hide Inv, Exec, AfterStore, TokenLink, LocalOk, CarriedOk;
    var w, s' := s.workers[id], StoreAct(cfg, s, id, op, now);
    WorkerIsOk(s, id);
    GoesOnCarrying(w, Exec(cfg, s.db, op, now).1, LifeOf(s'.lives, w.call.key), false);
    StoreActHarmless(cfg, s, id, op, now);
    if op.ClaimOp? {
      NothingCarried(s', s'.workers[id]);
    } else {
      CarriedMoves(s, s', w, s'.workers[id]);
    }
  }

  lemma NothingCarried(s: World, w: Worker)
    requires !Carries(w.pc)
    ensures CarriedOk(s, w)
  {
  }

  lemma ActorToken(cfg: Config, s: World, id: nat, op: Op, now: int)
    requires Inv(s) && Calls(s, id, op)
    ensures TokenLink(StoreAct(cfg, s, id, op, now), StoreAct(cfg, s, id, op, now).workers[id])
  {
    hide Inv, StoreAct, TokenLink, DbOk, TokensKnown, CarriedOk;
    CallIsSensible(s, id, op);
    WorkerIsOk(s, id);
    TablesOk(s);
    if op.ClaimOp? {
      TokenAfterClaim(cfg, s, id, op, now);
    } else {
      TokenAfterOther(cfg, s, id, op, now);
    }
  }

  lemma ActorOk(cfg: Config, s: World, id: nat, op: Op, now: int)
    requires Inv(s) && Calls(s, id, op)
    ensures WorkerOk(StoreAct(cfg, s, id, op, now), StoreAct(cfg, s, id, op, now).workers[id])
  {
    ActorLocal(cfg, s, id, op, now);
    ActorToken(cfg, s, id, op, now);
    if op.LoadPreparedOp? {
      CarriedAfterLoad(cfg, s, id, op, now);
    } else if op.SavePreparedOp? {
      CarriedAfterSave(cfg, s, id, op, now);
    } else if op.HeartbeatOp? {
      CarriedAfterBeat(cfg, s, id, op, now);
    } else {
      CarriedAfterOther(cfg, s, id, op, now);
    }
  }

  /** The acting worker and the bystanders together. */
  lemma WorkersAfter(s: World, s': World, id: nat, tokens: set<string>)
    requires WorkersOk(s) && id in s.workers && id in s'.workers && s'.workers == s.workers[id := s'.workers[id]]
    requires Harmless(s, s', tokens) && WorkerOk(s', s'.workers[id])
    requires forall t :: t in tokens ==> t !in s.issued || s.workers[id].token == Some(t)
    requires s'.workers[id].token == s.workers[id].token
      || (s'.workers[id].token.Some? && s'.workers[id].token.value in tokens)
    ensures WorkersOk(s')
  {
    forall i | i in s'.workers && i != id
      ensures WorkerOk(s', s'.workers[i])
      ensures s'.workers[i].token.Some? ==> s'.workers[i].token != s'.workers[id].token
    {
      assert TokenLink(s, s.workers[i]);
      BystanderOk(s, s', tokens, s.workers[i]);
    }
  }

  lemma ActorTokenIsOwn(cfg: Config, s: World, id: nat, op: Op, now: int)
    requires id in s.workers && OpAt(s.workers[id], if op.ClaimOp? then op.drawn else "") == Some(op)
    ensures var w' := StoreAct(cfg, s, id, op, now).workers[id];
      w'.token == s.workers[id].token || (op.ClaimOp? && w'.token == Some(op.drawn))
  {
  }

  lemma StoreActKeepsTables(cfg: Config, s: World, id: nat, op: Op, now: int)
    requires Inv(s) && Calls(s, id, op)
    ensures var s' := StoreAct(cfg, s, id, op, now);
      DbOk(s'.db) && TokensKnown(s'.db, s'.issued) && SuccessesOk(s') && HistoryOk(s')
  {
    CallIsSensible(s, id, op);
    ExecKeepsOk(cfg, s.db, op, now);
    TokensStayKnown(cfg, s.db, s.issued, op, now);
    assert TokenLink(s, s.workers[id]) && LocalOk(s.workers[id]);
    SuccessesKept(cfg, s, id, op, now);
    HistoryKept(cfg, s, id, op, now);
  }

  lemma StoreActKeepsWorkers(cfg: Config, s: World, id: nat, op: Op, now: int)
    requires Inv(s) && Calls(s, id, op)
    ensures WorkersOk(StoreAct(cfg, s, id, op, now))
  {
    ActorOk(cfg, s, id, op, now);
    StoreActHarmless(cfg, s, id, op, now);
    CallIsSensible(s, id, op);
    ActorTokenIsOwn(cfg, s, id, op, now);
    WorkersAfter(s, StoreAct(cfg, s, id, op, now), id, TokensOf(s.workers[id], op));
  }

  lemma StoreActKeepsInv(cfg: Config, s: World, id: nat, op: Op, now: int)
    requires Inv(s) && Calls(s, id, op)
    ensures Inv(StoreAct(cfg, s, id, op, now))
  {
    StoreActKeepsTables(cfg, s, id, op, now);
    StoreActKeepsWorkers(cfg, s, id, op, now);
    OriginKept(cfg, s, id, op, now);
  }

  /** Past its heartbeat a worker that holds the claim carries the row's own record. */
  lemma CarriesOwn(s: World, id: nat)
    requires Inv(s) && id in s.workers && CarriesChecked(s.workers[id].pc) && s.workers[id].token.Some?
    requires OwnedBy(s.db, s.workers[id].call.key, s.workers[id].token.value)
    requires s.db.rows[s.workers[id].call.key].state in {State.Prepared, State.Broadcast, Unknown}
    ensures s.db.rows[s.workers[id].call.key].preparedRecordId == Some(s.workers[id].pc.prepared.recordId)
  {
    hide Inv, LocalOk, RowAwaits;
    WorkerIsOk(s, id);
    OriginsOk(s);
    assert RowOk(s.db.rows[s.workers[id].call.key], s.db.records) && PointsToOwn(s, s.workers[id].call.key);
  }

  // ------------------------------------------------------------ steps without the store

  /** Steps that replace one worker and at most append to the history. */
  ghost predicate OnlyWorker(s: World, s': World, id: nat) {
    && s'.db == s.db && s'.issued == s.issued && s'.lives == s.lives && s'.origin == s.origin
    && id in s'.workers && s'.workers == s.workers[id := s'.workers[id]]
    && s.history <= s'.history
  }

  lemma OnlyWorkerKeepsInv(s: World, s': World, id: nat)
    requires Inv(s) && OnlyWorker(s, s', id) && WorkerOk(s, s'.workers[id])
    requires s'.workers[id].token == if id in s.workers then s.workers[id].token else None
    requires forall i :: |s.history| <= i < |s'.history| ==> EventOk(s', i)
    ensures Inv(s')
  {
    assert TokensKnown(s'.db, s'.issued) && DbOk(s'.db) && SuccessesOk(s');
    assert OriginOk(s') by {
      forall k | k in s'.db.rows ensures PointsToOwn(s', k) { assert PointsToOwn(s, k); }
    }
    WorkersDependOnTables(s, s', id);
    HistoryExtends(s, s');
  }

  lemma WorkersDependOnTables(s: World, s': World, id: nat)
    requires WorkersOk(s) && OnlyWorker(s, s', id) && WorkerOk(s, s'.workers[id])
    requires s'.workers[id].token == if id in s.workers then s.workers[id].token else None
    ensures WorkersOk(s')
  {
    forall i | i in s'.workers
      ensures WorkerOk(s', s'.workers[i])
    {
      var w := s'.workers[i];
      assert WorkerOk(s, w);
      assert TokenLink(s', w) && CarriedOk(s', w);
    }
  }

  lemma HistoryExtends(s: World, s': World)
    requires HistoryOk(s) && s'.db == s.db && s'.origin == s.origin && s.history <= s'.history
    requires forall i :: |s.history| <= i < |s'.history| ==> EventOk(s', i)
    ensures HistoryOk(s')
  {
    forall i | 0 <= i < |s'.history|
      ensures EventOk(s', i)
    {
      if i < |s.history| {
        assert EventOk(s, i);
        assert s'.history[..i] == s.history[..i];
      }
    }
    forall id | id in s'.origin && id in s'.db.records
      ensures Persisted(id, s'.origin[id], s'.db.records[id].rawTx) in s'.history
    {
      assert Persisted(id, s.origin[id], s.db.records[id].rawTx) in s.history;
    }
  }

  /** No answer moves a worker to a point that asks more of its row. */
  lemma TokenAfterRail(s: World, w: Worker, answer: Answer)
    requires TokenLink(s, w) && Fits(w.pc, answer) && LocalOk(w)
    ensures TokenLink(s, AfterRail(w, answer))
  {
    hide AfterRail, Fits, LocksOk;
    RailAsksNoMore(w, answer);
  }

  lemma RailAsksNoMore(w: Worker, answer: Answer)
    requires Fits(w.pc, answer)
    ensures var w' := AfterRail(w, answer);
      (Preparing(w'.pc) ==> Preparing(w.pc)) && (w'.pc.Responding? ==> w.pc.Working?)
  {
    hide ValidTxid, SignedDraft, OkBody;
  }

  lemma RailGoesOnCarrying(w: Worker, answer: Answer)
    requires Fits(w.pc, answer)
    ensures var w' := AfterRail(w, answer);
      (Carries(w'.pc) ==> CarriesChecked(w.pc) && CarriesChecked(w'.pc) && w'.pc.prepared == w.pc.prepared)
  {
    hide ValidTxid, SignedDraft, OkBody;
  }

  lemma RailActKeepsInv(s: World, id: nat, answer: Answer)
    requires Inv(s) && id in s.workers && Fits(s.workers[id].pc, answer)
    ensures Inv(RailAct(s, id, answer))
  {
    hide Inv, TokenLink, LocalOk, CarriedOk, HistoryOk, EventOk, AfterRail, Fits;
    var w, s' := s.workers[id], RailAct(s, id, answer);
    WorkerIsOk(s, id);
    TablesOk(s);
    LocalAfterRail(w, answer);
    TokenAfterRail(s, w, answer);
    RailGoesOnCarrying(w, answer);
    CarriedMoves(s, s, w, AfterRail(w, answer));
    if w.pc.Sending? {
      SendIsBacked(s, s', w, id);
    }
    OnlyWorkerKeepsInv(s, s', id);
  }

  /** What is sent now was committed before. */
  lemma SendIsBacked(s: World, s': World, w: Worker, id: nat)
    requires w.pc.Sending? && CarriedOk(s, w) && HistoryOk(s)
    requires s'.history == s.history
      + [Sent(id, w.pc.prepared.recordId, Life(w.call.key, w.life), w.pc.prepared.rawTx)]
    ensures EventOk(s', |s.history|)
  {
    var p := w.pc.prepared;
    assert Persisted(p.recordId, s.origin[p.recordId], s.db.records[p.recordId].rawTx) in s.history;
    assert s'.history[..|s.history|] == s.history;
  }

  /** Pruning, and inserting a record for another purpose. */
  lemma TablesOnlyKeepInv(cfg: Config, s: World, op: Op, now: int)
    requires Inv(s) && (op.PruneOp? || op.RecordOp?)
    ensures Inv(s.(db := Exec(cfg, s.db, op, now).0))
  {
    hide Inv, DbOk, TokensKnown, SuccessesOk, HistoryOk, OriginOk, WorkersOk;
    var s' := s.(db := Exec(cfg, s.db, op, now).0);
    TablesOk(s);
    OriginsOk(s);
    ExecKeepsOk(cfg, s.db, op, now);
    TokensStayKnown(cfg, s.db, s.issued, op, now);
    TablesOnlyFrame(cfg, s, op, now);
    TablesOnlyKeepWorkers(s, s');
    TablesOnlyKeepRows(s, s');
    OriginsHaveRecords(s);
    HistoryAfter(s, s', []);
    InvFromParts(s');
  }

  lemma OriginsHaveRecords(s: World)
    requires OriginOk(s)
    ensures forall r :: r in s.origin ==> r in s.db.records
  {
  }

  lemma InvFromParts(s: World)
    requires DbOk(s.db) && TokensKnown(s.db, s.issued) && WorkersOk(s) && OriginOk(s) && SuccessesOk(s) && HistoryOk(s)
    ensures Inv(s)
  {
    hide DbOk, TokensKnown, OriginOk, SuccessesOk, HistoryOk, WorkersOk;
  }

  /** Rows may disappear and records be added; nothing else happens to the tables. */
  ghost predicate TablesOnly(s: World, s': World) {
    && s' == s.(db := s'.db)
    && (forall k :: k in s'.db.rows ==> k in s.db.rows && s'.db.rows[k] == s.db.rows[k])
    && (forall r :: r in s.db.records ==> r in s'.db.records && s'.db.records[r] == s.db.records[r])
  }

  lemma TablesOnlyFrame(cfg: Config, s: World, op: Op, now: int)
    requires DbOk(s.db) && (op.PruneOp? || op.RecordOp?)
    ensures TablesOnly(s, s.(db := Exec(cfg, s.db, op, now).0))
  {
    assert s.db.lastRecordId + 1 !in s.db.records;
  }

  lemma TablesOnlyKeepWorkers(s: World, s': World)
    requires Inv(s) && TablesOnly(s, s')
    ensures WorkersOk(s')
  {
    hide Inv, TokenLink, CarriedOk, LocalOk;
    assert Harmless(s, s', {});
    AllWorkersOk(s);
    forall i | i in s'.workers
      ensures WorkerOk(s', s'.workers[i])
    {
      BystanderOk(s, s', {}, s.workers[i]);
    }
  }

  lemma AllWorkersOk(s: World)
    requires Inv(s)
    ensures WorkersOk(s)
  {
    hide DbOk, TokensKnown, OriginOk, SuccessesOk, HistoryOk, WorkersOk;
  }

  lemma TablesOnlyKeepRows(s: World, s': World)
    requires DbOk(s.db) && OriginOk(s) && SuccessesOk(s) && TablesOnly(s, s')
    ensures OriginOk(s') && SuccessesOk(s')
  {
    forall k | k in s'.db.rows
      ensures PointsToOwn(s', k) && SuccessOk(s'.db.rows[k], s'.db.records)
    {
      assert PointsToOwn(s, k) && SuccessOk(s.db.rows[k], s.db.records);
    }
  }

  lemma ArriveKeepsInv(cfg: Config, s: World, id: nat, call: Call)
    requires Inv(s) && id !in s.workers
    ensures Inv(Step(cfg, s, Arrive(id, call)))
  {
    OnlyWorkerKeepsInv(s, Step(cfg, s, Arrive(id, call)), id);
  }

  lemma CrashKeepsInv(cfg: Config, s: World, id: nat)
    requires Inv(s) && Enabled(s, Crash(id))
    ensures Inv(Step(cfg, s, Crash(id)))
  {
    hide Inv, HistoryOk, EventOk;
    WorkerIsOk(s, id);
    OnlyWorkerKeepsInv(s, Step(cfg, s, Crash(id)), id);
  }

  /** The invariant is inductive: every enabled step of every worker and of the environment keeps it. */
  lemma StepKeepsInv(cfg: Config, s: World, move: Move)
    requires Inv(s) && Enabled(s, move)
    ensures Inv(Step(cfg, s, move))
  {
    hide Inv, StoreAct, RailAct, Fits;
    match move
    case Arrive(id, call) => ArriveKeepsInv(cfg, s, id, call);
    case Act(id, now, drawn, answer) =>
      if OpAt(s.workers[id], drawn).Some? {
        StoreActKeepsInv(cfg, s, id, OpAt(s.workers[id], drawn).value, now);
      } else {
        RailActKeepsInv(s, id, answer);
      }
    case Crash(id) => CrashKeepsInv(cfg, s, id);
    case Prune(now) => TablesOnlyKeepInv(cfg, s, PruneOp, now);
    case Record(record) => TablesOnlyKeepInv(cfg, s, RecordOp(record), 0);
  }

  lemma OthersStay(cfg: Config, s: World, move: Move, id: nat)
    requires Enabled(s, move) && id in s.workers && !(move.Act? && move.id == id)
    ensures id in Step(cfg, s, move).workers
    ensures var w, w' := s.workers[id], Step(cfg, s, move).workers[id]; w' == w || w' == w.(pc := Crashed)
  {
    hide Fits, Exec, AfterRail, AfterStore;
  }

  lemma Newcomer(cfg: Config, s: World, move: Move, id: nat)
    requires Enabled(s, move) && id !in s.workers && id in Step(cfg, s, move).workers
    ensures Step(cfg, s, move).workers[id].pc.Claiming?
  {
    hide Fits, Exec, AfterRail, AfterStore;
  }

  lemma {:induction false} ReachableInv(cfg: Config, run: seq<World>, moves: seq<Move>, i: nat)
    requires BitcoinSend.IsRun(cfg, run, moves) && i < |run|
    ensures Inv(run[i])
  {
    if i > 0 {
      ReachableInv(cfg, run, moves, i - 1);
      assert run[i - 1 + 1] == Step(cfg, run[i - 1], moves[i - 1]);
      StepKeepsInv(cfg, run[i - 1], moves[i - 1]);
    }
  }
}
