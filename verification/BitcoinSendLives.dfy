/**
 What lasts while a key's row lasts: its life number, a settled answer, the seal of a broadcast
 that nobody doubts, and so the bytes submitted for the key.
 */
module BitcoinSendLives {
  import opened Prelude
  import opened BitcoinStore
  import opened BitcoinStoreProofs
  import opened BitcoinSend
  import opened BitcoinSendInvariant
  import opened BitcoinSendSteps
  import opened BitcoinSendTheorems

  /** The store call this move makes, and the clock reading it goes by. */
  function CallOf(s: World, move: Move): Option<(Op, int)> {
    match move
    case Act(id, now, drawn, _) =>
      if id !in s.workers then None
      else (match OpAt(s.workers[id], drawn) case Some(op) => Some((op, now)) case None => None)
    case Prune(now) => Some((PruneOp, now))
    case Record(record) => Some((RecordOp(record), 0))
    case _ => None
  }

  /** The move prunes the key's row, or claims the key anew: it goes by a clock past the row's expiry. */
  predicate RowEnds(s: World, move: Move, key: string) {
    match CallOf(s, move)
    case Some((op, now)) => EndsRow(s.db, op, now, key)
    case None => false
  }

  /** From `i` to `j` the key's row does not end. */
  ghost predicate Outlives(run: seq<World>, moves: seq<Move>, i: nat, j: nat, key: string)
    requires |run| == |moves| + 1 && i <= j < |run|
  {
    forall m :: i <= m < j ==> !RowEnds(run[m], moves[m], key)
  }

  lemma StepCalls(cfg: Config, s: World, move: Move)
    requires Inv(s) && Enabled(s, move)
    ensures var s' := Step(cfg, s, move);
      match CallOf(s, move)
      case Some((op, now)) =>
        Sensible(op) && s'.db == Exec(cfg, s.db, op, now).0 && s'.lives == NextLives(s, op, now)
      case None => s'.db == s.db && s'.lives == s.lives
  {
    hide Inv, AfterRail, AfterStore, Exec, Fits;
    if move.Act? && CallOf(s, move).Some? {
      CallIsSensible(s, move.id, CallOf(s, move).value.0);
    }
  }

  // ------------------------------------------------------------ lives

  lemma LifeStep(cfg: Config, s: World, move: Move, key: string)
    requires Inv(s) && Enabled(s, move) && key in s.db.rows && !RowEnds(s, move, key)
    ensures key in Step(cfg, s, move).db.rows && LifeOf(Step(cfg, s, move).lives, key) == LifeOf(s.lives, key)
  {
    hide Inv, Step, Enabled, CallOf;
    StepCalls(cfg, s, move);
  }

  /** A row that does not end stays in its life. */
  lemma {:induction false} LifeGoesOn(cfg: Config, run: seq<World>, moves: seq<Move>, i: nat, j: nat, key: string)
    requires BitcoinSend.IsRun(cfg, run, moves) && i <= j < |run|
    requires key in run[i].db.rows && Outlives(run, moves, i, j, key)
    ensures key in run[j].db.rows && LifeOf(run[j].lives, key) == LifeOf(run[i].lives, key)
    decreases j
  {
    hide Inv, Step, Enabled, RowEnds;
    if i < j {
      LifeGoesOn(cfg, run, moves, i, j - 1, key);
      ReachableInv(cfg, run, moves, j - 1);
      LifeStep(cfg, run[j - 1], moves[j - 1], key);
      assert run[j - 1 + 1] == Step(cfg, run[j - 1], moves[j - 1]);
    }
  }

  // ------------------------------------------------------------ replay

  lemma {:induction false} SettledStays(cfg: Config, run: seq<World>, moves: seq<Move>, i: nat, j: nat, key: string)
    requires BitcoinSend.IsRun(cfg, run, moves) && i <= j < |run|
    requires key in run[i].db.rows && Settled(run[i].db.rows[key].state) && Outlives(run, moves, i, j, key)
    ensures key in run[j].db.rows && run[j].db.rows[key] == run[i].db.rows[key]
    decreases j
  {
    hide Inv, Step, Enabled, RowEnds;
    if i < j {
      SettledStays(cfg, run, moves, i, j - 1, key);
      ReachableInv(cfg, run, moves, j - 1);
      SettledMove(cfg, run[j - 1], moves[j - 1], key);
      assert run[j - 1 + 1] == Step(cfg, run[j - 1], moves[j - 1]);
    }
  }

  lemma SettledMove(cfg: Config, s: World, move: Move, key: string)
    requires Inv(s) && Enabled(s, move) && key in s.db.rows && Settled(s.db.rows[key].state) && !RowEnds(s, move, key)
    ensures key in Step(cfg, s, move).db.rows && Step(cfg, s, move).db.rows[key] == s.db.rows[key]
  {
    hide Inv, Step, Enabled, CallOf, Exec, DbOk;
    StepCalls(cfg, s, move);
    TablesOk(s);
    if CallOf(s, move).Some? {
      SettledStep(cfg, s.db, CallOf(s, move).value.0, CallOf(s, move).value.1, key);
    }
  }

  /**
   Replay in the whole system: until its row expires, a settled key answers every later claim of
   the same request with the stored status and body, tagged as a replay and with the new
   request's id, and refuses every other request.
   */
  lemma SettledKeysReplay(
      cfg: Config, run: seq<World>, moves: seq<Move>, i: nat, j: nat, id: nat, now: int, drawn: string)
    requires BitcoinSend.IsRun(cfg, run, moves) && i <= j < |run|
    requires id in run[j].workers && run[j].workers[id].pc.Claiming?
    requires run[j].workers[id].call.key in run[i].db.rows
    requires Settled(run[i].db.rows[run[j].workers[id].call.key].state)
    requires Outlives(run, moves, i, j, run[j].workers[id].call.key)
    requires now < run[i].db.rows[run[j].workers[id].call.key].expiresAt
    requires Enabled(run[j], Act(id, now, drawn, Quiet))
    ensures var call, s' := run[j].workers[id].call, Step(cfg, run[j], Act(id, now, drawn, Quiet));
      var row := run[i].db.rows[call.key];
      && s'.db == run[j].db
      && s'.workers[id].pc == Finished(if row.scope == call.scope && row.requestHash == call.hash
                                       then Answered(row.statusCode, TagReplay(row.response, call.requestId))
                                       else RefusalOutcome(KeyReused))
  {
    hide Inv;
    SettledStays(cfg, run, moves, i, j, run[j].workers[id].call.key);
  }

  // ------------------------------------------------------------ is a broadcast final?

  /** The move is a worker's `mark_unknown` on the key, and it is accepted. */
  predicate DoubtsKey(cfg: Config, s: World, move: Move, key: string) {
    match CallOf(s, move)
    case Some((op, now)) => Doubts(cfg, s.db, op, now, key)
    case None => false
  }

  lemma SealMove(cfg: Config, s: World, move: Move, key: string)
    requires Inv(s) && Enabled(s, move) && Sealed(s.db, key) && !RowEnds(s, move, key)
    ensures Sealed(Step(cfg, s, move).db, key) <==> !DoubtsKey(cfg, s, move, key)
  {
    hide Inv, Step, Enabled, CallOf, Exec, DbOk, Sealed, Doubts, EndsRow;
    StepCalls(cfg, s, move);
    TablesOk(s);
    if CallOf(s, move).Some? {
      SealStep(cfg, s.db, CallOf(s, move).value.0, CallOf(s, move).value.1, key);
    }
  }

  /**
   When a broadcast is final in a run: while the row of a key does not end, it says BROADCAST or
   SUCCEEDED all the way if and only if no worker's `mark_unknown` on the key is accepted.
   */
  lemma {:induction false} BroadcastFinalInRun(
      cfg: Config, run: seq<World>, moves: seq<Move>, i: nat, j: nat, key: string)
    requires BitcoinSend.IsRun(cfg, run, moves) && i <= j < |run|
    requires Sealed(run[i].db, key) && Outlives(run, moves, i, j, key)
    ensures (forall n :: i <= n <= j ==> Sealed(run[n].db, key))
      <==> (forall m :: i <= m < j ==> !DoubtsKey(cfg, run[m], moves[m], key))
    decreases j
  {
    hide Inv, Step, Enabled, RowEnds, Sealed, DoubtsKey;
    if i < j {
      assert Outlives(run, moves, i, j - 1, key);
      BroadcastFinalInRun(cfg, run, moves, i, j - 1, key);
      ReachableInv(cfg, run, moves, j - 1);
      assert run[j - 1 + 1] == Step(cfg, run[j - 1], moves[j - 1]);
      if Sealed(run[j - 1].db, key) {
        SealMove(cfg, run[j - 1], moves[j - 1], key);
      }
    }
  }

  /** A doubt has a worker behind it that lost the node's answer, holds the claim and carries the row's own record. */
  lemma DoubtsCarry(cfg: Config, run: seq<World>, moves: seq<Move>, m: nat, key: string)
    requires BitcoinSend.IsRun(cfg, run, moves) && m < |moves| && DoubtsKey(cfg, run[m], moves[m], key)
    ensures moves[m].Act? && moves[m].id in run[m].workers
    ensures var s, w := run[m], run[m].workers[moves[m].id];
      && w.pc.MarkingUnknown? && w.call.key == key && w.token.Some? && OwnedBy(s.db, key, w.token.value)
      && s.db.rows[key].preparedRecordId == Some(w.pc.prepared.recordId)
  {
    hide Inv;
    var s, id := run[m], moves[m].id;
    ReachableInv(cfg, run, moves, m);
    DoubterOwns(cfg, s, id, CallOf(s, moves[m]).value.0, CallOf(s, moves[m]).value.1);
    CarriesOwn(s, id);
  }

  lemma DoubterOwns(cfg: Config, s: World, id: nat, op: Op, now: int)
    requires Inv(s) && Calls(s, id, op) && op.MarkUnknownOp? && Exec(cfg, s.db, op, now).1 == Stored
    ensures var w := s.workers[id];
      w.pc.MarkingUnknown? && w.call.key == op.key && w.token.Some? && OwnedBy(s.db, op.key, w.token.value)
    ensures !Settled(s.db.rows[op.key].state) && s.db.rows[op.key].state != State.Claimed
  {
    hide Inv;
    CallIsSensible(s, id, op);
  }

  // ------------------------------------------------------------ bytes of a key

  /** This step of the run appends this event. */
  ghost predicate Appends(run: seq<World>, a: int, e: Event) {
    0 <= a < |run| - 1 && run[a + 1].history == run[a].history + [e]
  }

  lemma StepAppends(cfg: Config, s: World, move: Move)
    requires Enabled(s, move)
    ensures var s' := Step(cfg, s, move);
      s'.history == s.history || exists e :: s'.history == s.history + [e]
  {
    hide AfterRail, AfterStore, Exec, Fits;
  }

  lemma {:induction false} AppendedAt(cfg: Config, run: seq<World>, moves: seq<Move>, n: nat, e: Event)
    returns (a: nat)
    requires BitcoinSend.IsRun(cfg, run, moves) && n < |run| && e in run[n].history
    ensures a < n && Appends(run, a, e)
  {
    hide Step, Enabled;
    assert run[n - 1 + 1] == Step(cfg, run[n - 1], moves[n - 1]);
    StepAppends(cfg, run[n - 1], moves[n - 1]);
    if e in run[n - 1].history {
      a := AppendedAt(cfg, run, moves, n - 1, e);
    } else {
      a := n - 1;
    }
  }

  /** A record is committed in the life its key's row has then, and the row is there. */
  lemma CommitsInLife(cfg: Config, run: seq<World>, moves: seq<Move>, a: nat, e: Event)
    requires BitcoinSend.IsRun(cfg, run, moves) && Appends(run, a, e) && e.Persisted?
    ensures e.life.key in run[a].db.rows && LifeOf(run[a].lives, e.life.key) == e.life.number
    ensures e.life.key in run[a + 1].db.rows && LifeOf(run[a + 1].lives, e.life.key) == e.life.number
  {
    hide Inv, LocalOk, CarriedOk;
    var s, move := run[a], moves[a];
    assert run[a + 1] == Step(cfg, s, move);
    assert run[a + 1].history[|s.history|] == e;
    ReachableInv(cfg, run, moves, a);
    WorkerIsOk(s, move.id);
    CallIsSensible(s, move.id, CallOf(s, move).value.0);
  }

  /** A key's row ends at some step of the run strictly after `a` and before `b`. */
  ghost predicate EndsBetween(run: seq<World>, moves: seq<Move>, a: int, b: int, key: string)
    requires |run| == |moves| + 1
  {
    exists m :: a < m < b && 0 <= m < |moves| && RowEnds(run[m], moves[m], key)
  }

  /** Between two commits in different lives of a key its row ends. */
  lemma LivesArePartedByAnEnd(cfg: Config, run: seq<World>, moves: seq<Move>, a: nat, b: nat, e: Event, f: Event)
    requires BitcoinSend.IsRun(cfg, run, moves) && Appends(run, a, e) && Appends(run, b, f) && a <= b
    requires e.Persisted? && f.Persisted? && e.life.key == f.life.key && e.life != f.life
    ensures EndsBetween(run, moves, a, b, e.life.key)
  {
    hide RowEnds;
    var key := e.life.key;
    CommitsInLife(cfg, run, moves, a, e);
    CommitsInLife(cfg, run, moves, b, f);
    assert a < b;
    if Outlives(run, moves, a + 1, b, key) {
      LifeGoesOn(cfg, run, moves, a + 1, b, key);
    }
  }

  /** The event that committed what this submission sends. */
  function CommitEvent(sent: Event): Event
    requires sent.Sent?
  {
    Persisted(sent.recordId, sent.life, sent.rawTx)
  }

  lemma SentIsCommitted(cfg: Config, run: seq<World>, moves: seq<Move>, n: nat, i: nat) returns (a: nat)
    requires BitcoinSend.IsRun(cfg, run, moves) && n < |run| && i < |run[n].history| && run[n].history[i].Sent?
    ensures Appends(run, a, CommitEvent(run[n].history[i]))
  {
    hide Appends;
    ReachableInv(cfg, run, moves, n);
    assert EventOk(run[n], i);
    a := AppendedAt(cfg, run, moves, n, CommitEvent(run[n].history[i]));
  }

  /**
   Two submissions of one key that carry different bytes: between the steps that committed the
   bytes, the key's row was pruned or claimed anew at a clock past its expiry.
   */
  lemma DifferentBytesMeanExpiry(cfg: Config, run: seq<World>, moves: seq<Move>, n: nat, i: nat, j: nat)
    requires BitcoinSend.IsRun(cfg, run, moves) && n < |run| && i < |run[n].history| && j < |run[n].history|
    requires run[n].history[i].Sent? && run[n].history[j].Sent?
    requires run[n].history[i].life.key == run[n].history[j].life.key
    requires run[n].history[i].rawTx != run[n].history[j].rawTx
    ensures exists a, b ::
      && Appends(run, a, CommitEvent(run[n].history[i])) && Appends(run, b, CommitEvent(run[n].history[j]))
      && (EndsBetween(run, moves, a, b, run[n].history[i].life.key)
          || EndsBetween(run, moves, b, a, run[n].history[i].life.key))
  {
    hide BitcoinSend.IsRun, EndsBetween, Appends;
    var e, f := run[n].history[i], run[n].history[j];
    if e.life == f.life { SameBytesPerLife(cfg, run, moves, n, i, j); }
    var a := SentIsCommitted(cfg, run, moves, n, i);
    var b := SentIsCommitted(cfg, run, moves, n, j);
    if a <= b {
      LivesArePartedByAnEnd(cfg, run, moves, a, b, CommitEvent(e), CommitEvent(f));
    } else {
      LivesArePartedByAnEnd(cfg, run, moves, b, a, CommitEvent(f), CommitEvent(e));
    }
  }
}
