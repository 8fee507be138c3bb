/**
 The discipline of input locks: which PSBTs a send request asks the node to unlock, and how
 that follows from what the run has done to the transaction records.
 */
module BitcoinSendLocks {
  import opened Prelude
  import opened BitcoinStore
  import opened BitcoinSend
  import opened BitcoinSendInvariant
  import opened BitcoinSendSteps

  // ------------------------------------------------------------ what a worker notes

  /** A record appears exactly when the worker that wrote it notes so. */
  lemma PersistingIsNoted(cfg: Config, s: World, id: nat, op: Op, now: int)
    requires Inv(s) && Calls(s, id, op)
    ensures var w, s' := s.workers[id], StoreAct(cfg, s, id, op, now);
      s'.workers[id].persisted && !w.persisted <==> s'.db.records.Keys != s.db.records.Keys
  {
    var w := s.workers[id];
    CallIsSensible(s, id, op);
    assert LocalOk(w);
    if op.SavePreparedOp? {
      SaveWritesOrLoses(cfg, s, id, op, now);
    }
    OnlySavingInserts(cfg, s.db, op, now);
    NotingAfterStore(w, if op.ClaimOp? then op.drawn else "", Exec(cfg, s.db, op, now).1,
                     LifeOf(NextLives(s, op, now), w.call.key),
                     op.SavePreparedOp? && Exec(cfg, s.db, op, now).0 != s.db);
  }

  lemma OnlySavingInserts(cfg: Config, db: Db, op: Op, now: int)
    requires DbOk(db) && !op.RecordOp?
    ensures Exec(cfg, db, op, now).0.records.Keys != db.records.Keys
      <==> op.SavePreparedOp? && Exec(cfg, db, op, now).0 != db
  {
    assert db.lastRecordId + 1 !in db.records;
    if op.SavePreparedOp? && Exec(cfg, db, op, now).0 != db {
      SaveInserts(cfg, db, op, now);
    }
  }

  lemma NotingAfterStore(w: Worker, drawn: string, reply: Reply, life: nat, wrote: bool)
    requires LocalOk(w) && OpAt(w, drawn).Some? && (wrote ==> w.pc.Saving? && reply.Loaded?)
    ensures AfterStore(w, reply, life, wrote).persisted && !w.persisted <==> wrote
  {
  }

  /** A record is marked rejected only by a worker that carries it, which notes the record's PSBT. */
  lemma RejectionIsNoted(cfg: Config, s: World, id: nat, op: Op, now: int, r: nat)
    requires Inv(s) && Calls(s, id, op) && r in s.db.records && NowRejected(s.db, Exec(cfg, s.db, op, now).0, r)
    ensures var w' := StoreAct(cfg, s, id, op, now).workers[id];
      w'.pc.UnlockingRejected? && w'.rejectedPsbt == Some(s.db.records[r].psbt)
  {
    hide Inv, AfterStore, NowRejected, RowOk;
    TablesOk(s);
    RejectsOnlyByMark(cfg, s.db, op, now, r);
    RejectsCarried(cfg, s, id, op, now);
    RejectingGoesOn(s.workers[id], LifeOf(NextLives(s, op, now), s.workers[id].call.key));
  }

  lemma RejectingGoesOn(w: Worker, life: nat)
    requires w.pc.Rejecting?
    ensures AfterStore(w, Stored, life, false) == w.(pc := UnlockingRejected(w.pc.prepared),
                                                     rejectedPsbt := Some(w.pc.prepared.psbt))
  {
  }

  lemma RejectsOnlyByMark(cfg: Config, db: Db, op: Op, now: int, r: nat)
    requires DbOk(db) && r in db.records && NowRejected(db, Exec(cfg, db, op, now).0, r)
    ensures op.MarkPreparedFailedOp? && Exec(cfg, db, op, now).1 == Stored
    ensures db.rows[op.key].preparedRecordId == Some(r)
  {
    assert db.lastRecordId + 1 !in db.records;
  }

  ghost predicate NowRejected(db: Db, db': Db, r: nat)
    requires r in db.records
  {
    r in db'.records && db.records[r].status != TxRejected && db'.records[r].status == TxRejected
  }

  /** The record a rejecting worker marks is the one it carries. */
  lemma RejectsCarried(cfg: Config, s: World, id: nat, op: Op, now: int)
    requires Inv(s) && Calls(s, id, op) && op.MarkPreparedFailedOp? && Exec(cfg, s.db, op, now).0 != s.db
    ensures s.workers[id].pc.Rejecting?
    ensures var p := s.workers[id].pc.prepared;
      && s.db.rows[op.key].preparedRecordId == Some(p.recordId)
      && p.recordId in s.db.records && NowRejected(s.db, Exec(cfg, s.db, op, now).0, p.recordId)
      && s.db.records[p.recordId].psbt == p.psbt
  {
    hide Inv, Exec, RowOk;
    CallIsSensible(s, id, op);
    TablesOk(s);
    MarkRejects(cfg, s.db, op, now);
    CarriesOwn(s, id);
    CarriedMatches(s, id);
  }

  lemma CarriedMatches(s: World, id: nat)
    requires Inv(s) && id in s.workers && Carries(s.workers[id].pc)
    ensures var p := s.workers[id].pc.prepared;
      p.recordId in s.db.records && s.db.records[p.recordId].psbt == p.psbt
  {
    hide Inv, LocalOk, TokenLink;
    WorkerIsOk(s, id);
  }

  lemma MarkRejects(cfg: Config, db: Db, op: Op, now: int)
    requires DbOk(db) && op.MarkPreparedFailedOp? && Exec(cfg, db, op, now).0 != db
    ensures OwnedBy(db, op.key, op.token) && db.rows[op.key].state in {State.Prepared, Unknown}
    ensures db.rows[op.key].preparedRecordId.Some? && db.rows[op.key].preparedRecordId.value in db.records
    ensures NowRejected(db, Exec(cfg, db, op, now).0, db.rows[op.key].preparedRecordId.value)
  {
    if op.key in db.rows { assert RowOk(db.rows[op.key], db.records); }
  }

  // ------------------------------------------------------------ notes and the run

  predicate MovedBy(move: Move, id: nat) {
    move.Act? && move.id == id
  }

  /** One step of a worker: its notes change exactly when the records do. */
  lemma ActNotes(cfg: Config, s: World, id: nat, op: Op, now: int, psbt: string)
    requires Inv(s) && Calls(s, id, op)
    ensures var w, s' := s.workers[id], StoreAct(cfg, s, id, op, now);
      && (s'.workers[id].persisted <==> w.persisted || s'.db.records.Keys != s.db.records.Keys)
      && (s'.workers[id].rejectedPsbt == Some(psbt) <==> w.rejectedPsbt == Some(psbt) || RejectsPsbt(s.db, s'.db, psbt))
  {
    hide StoreAct, RejectsPsbt, Inv;
    PersistingIsNoted(cfg, s, id, op, now);
    if s.workers[id].persisted { PersistedStays(cfg, s, id, op, now); }
    ActNotesRejection(cfg, s, id, op, now, psbt);
  }

  lemma PersistedStays(cfg: Config, s: World, id: nat, op: Op, now: int)
    requires Inv(s) && Calls(s, id, op) && s.workers[id].persisted
    ensures StoreAct(cfg, s, id, op, now).workers[id].persisted
    ensures StoreAct(cfg, s, id, op, now).db.records.Keys == s.db.records.Keys
  {
    hide Exec, Inv, TokenLink, CarriedOk, SavePrepared;
    WorkerIsOk(s, id);
    TablesOk(s);
    OnlySavingInserts(cfg, s.db, op, now);
  }

  ghost predicate RejectsPsbt(db: Db, db': Db, psbt: string) {
    exists r :: r in db.records && db.records[r].psbt == psbt && NowRejected(db, db', r)
  }

  lemma ActNotesRejection(cfg: Config, s: World, id: nat, op: Op, now: int, psbt: string)
    requires Inv(s) && Calls(s, id, op)
    ensures var w, s' := s.workers[id], StoreAct(cfg, s, id, op, now);
      s'.workers[id].rejectedPsbt == Some(psbt) <==> w.rejectedPsbt == Some(psbt) || RejectsPsbt(s.db, s'.db, psbt)
  {
    var w, s' := s.workers[id], StoreAct(cfg, s, id, op, now);
    NothingRejectedYet(s, id, op);
    if RejectsPsbt(s.db, s'.db, psbt) {
      var r :| r in s.db.records && s.db.records[r].psbt == psbt && NowRejected(s.db, s'.db, r);
      RejectionIsNoted(cfg, s, id, op, now, r);
    }
    if s'.workers[id].rejectedPsbt == Some(psbt) {
      RejectingStored(cfg, s, id, op, now);
      RejectsCarried(cfg, s, id, op, now);
    }
  }

  lemma NothingRejectedYet(s: World, id: nat, op: Op)
    requires Inv(s) && Calls(s, id, op)
    ensures s.workers[id].rejectedPsbt.None?
  {
    hide Inv, TokenLink, CarriedOk;
    WorkerIsOk(s, id);
  }

  lemma RejectingStored(cfg: Config, s: World, id: nat, op: Op, now: int)
    requires Calls(s, id, op) && s.workers[id].rejectedPsbt.None?
    requires StoreAct(cfg, s, id, op, now).workers[id].rejectedPsbt.Some?
    ensures op.MarkPreparedFailedOp? && Exec(cfg, s.db, op, now).0 != s.db
    ensures s.workers[id].pc.Rejecting?
      && StoreAct(cfg, s, id, op, now).workers[id].rejectedPsbt == Some(s.workers[id].pc.prepared.psbt)
  {
  }

  /** One step of the system, seen from one worker's notes. */
  ghost predicate NotesStep(s: World, s': World, move: Move, id: nat, psbt: string) {
    if id !in s'.workers then id !in s.workers && !MovedBy(move, id)
    else if id !in s.workers then
      !MovedBy(move, id) && !s'.workers[id].persisted && s'.workers[id].rejectedPsbt.None?
    else
      && (s'.workers[id].persisted <==>
            s.workers[id].persisted || (MovedBy(move, id) && s'.db.records.Keys != s.db.records.Keys))
      && (s'.workers[id].rejectedPsbt == Some(psbt) <==>
            s.workers[id].rejectedPsbt == Some(psbt) || (MovedBy(move, id) && RejectsPsbt(s.db, s'.db, psbt)))
  }

  lemma NothingRejects(db: Db, psbt: string)
    ensures !RejectsPsbt(db, db, psbt)
  {
  }

  lemma StepNotes(cfg: Config, s: World, move: Move, id: nat, psbt: string)
    requires Inv(s) && Enabled(s, move)
    ensures NotesStep(s, Step(cfg, s, move), move, id, psbt)
  {
    hide Inv, RejectsPsbt, AfterStore, AfterRail, Fits, Exec;
    NothingRejects(s.db, psbt);
    if move.Act? && move.id == id {
      if OpAt(s.workers[id], move.drawn).Some? {
        ActNotes(cfg, s, id, OpAt(s.workers[id], move.drawn).value, move.now, psbt);
      } else {
        RailNotesNothing(s.workers[id], move.answer);
      }
    }
  }

  lemma RailNotesNothing(w: Worker, answer: Answer)
    requires Fits(w.pc, answer)
    ensures AfterRail(w, answer).persisted == w.persisted && AfterRail(w, answer).rejectedPsbt == w.rejectedPsbt
  {
    hide ValidTxid;
  }

  /** Before point `n` of the run the worker inserted a transaction record. */
  ghost predicate EverInserted(run: seq<World>, moves: seq<Move>, n: nat, id: nat)
    requires |run| == |moves| + 1 && n < |run|
  {
    exists m :: 0 <= m < n && MovedBy(moves[m], id) && run[m + 1].db.records.Keys != run[m].db.records.Keys
  }

  /** Before point `n` of the run the worker marked a record with this PSBT rejected. */
  ghost predicate EverRejected(run: seq<World>, moves: seq<Move>, n: nat, id: nat, psbt: string)
    requires |run| == |moves| + 1 && n < |run|
  {
    exists m :: 0 <= m < n && MovedBy(moves[m], id) && RejectsPsbt(run[m].db, run[m + 1].db, psbt)
  }

  lemma {:induction false} NotesTellTheRun(
      cfg: Config, run: seq<World>, moves: seq<Move>, n: nat, id: nat, psbt: string)
    requires BitcoinSend.IsRun(cfg, run, moves) && n < |run|
    ensures if id in run[n].workers then
              && (run[n].workers[id].persisted <==> EverInserted(run, moves, n, id))
              && (run[n].workers[id].rejectedPsbt == Some(psbt) <==> EverRejected(run, moves, n, id, psbt))
            else !EverInserted(run, moves, n, id) && !EverRejected(run, moves, n, id, psbt)
  {
    hide Inv, Step, Enabled, RejectsPsbt;
    if n > 0 {
      NotesTellTheRun(cfg, run, moves, n - 1, id, psbt);
      ReachableInv(cfg, run, moves, n - 1);
      assert run[n - 1 + 1] == Step(cfg, run[n - 1], moves[n - 1]);
      StepNotes(cfg, run[n - 1], moves[n - 1], id, psbt);
      OneMoreStep(run, moves, n, id, psbt);
    }
  }

  lemma OneMoreStep(run: seq<World>, moves: seq<Move>, n: nat, id: nat, psbt: string)
    requires |run| == |moves| + 1 && 0 < n < |run|
    ensures EverInserted(run, moves, n, id)
      <==> (|| EverInserted(run, moves, n - 1, id)
            || (MovedBy(moves[n - 1], id) && run[n].db.records.Keys != run[n - 1].db.records.Keys))
    ensures EverRejected(run, moves, n, id, psbt)
      <==> (|| EverRejected(run, moves, n - 1, id, psbt)
            || (MovedBy(moves[n - 1], id) && RejectsPsbt(run[n - 1].db, run[n].db, psbt)))
  {
    hide RejectsPsbt;
    assert run[n - 1 + 1] == run[n];
  }

  // ------------------------------------------------------------ theorem

  /**
   Input locks: a call that ends without a crash has asked to unlock exactly the PSBT it funded,
   if in the whole run it never inserted a record, and the PSBT of the record it marked rejected
   in the run. It has asked for nothing else.
   */
  lemma LockDiscipline(cfg: Config, run: seq<World>, moves: seq<Move>, n: nat, id: nat, psbt: string)
    requires BitcoinSend.IsRun(cfg, run, moves) && n < |run|
    requires id in run[n].workers && run[n].workers[id].pc.Finished?
    ensures var w := run[n].workers[id];
      && (EverInserted(run, moves, n, id) ==> w.fundedPsbt.Some?)
      && w.released == (if w.fundedPsbt.Some? && !EverInserted(run, moves, n, id) then [w.fundedPsbt.value] else [])
                       + (if w.rejectedPsbt.Some? then [w.rejectedPsbt.value] else [])
      && (w.rejectedPsbt == Some(psbt) <==> EverRejected(run, moves, n, id, psbt))
      && (psbt in w.released <==>
            || (w.fundedPsbt == Some(psbt) && !EverInserted(run, moves, n, id))
            || EverRejected(run, moves, n, id, psbt))
  {
    ReachableInv(cfg, run, moves, n);
    NotesTellTheRun(cfg, run, moves, n, id, psbt);
    assert WorkerOk(run[n], run[n].workers[id]);
  }
}
