/**
 What the heartbeat before a submission is worth: whoever submits has held the row at its last
 heartbeat, with the very transaction it submits. It need not hold the row any longer when it
 submits, as `BitcoinSendScenario` shows.
 */
module BitcoinSendBeats {
  import opened Prelude
  import opened BitcoinStore
  import opened BitcoinSend
  import opened BitcoinSendInvariant
  import opened BitcoinSendSteps
  import opened BitcoinSendLives

  /** The worker stands before its heartbeat with this transaction, and the open row carries its token. */
  ghost predicate BeatsWith(s: World, id: nat, token: Option<string>, prepared: PreparedBroadcast) {
    && id in s.workers && s.workers[id].pc == Heartbeating(prepared) && s.workers[id].token == token
    && token.Some? && OwnedBy(s.db, s.workers[id].call.key, token.value)
    && !Settled(s.db.rows[s.workers[id].call.key].state)
  }

  /** Step `m` of the run is such a heartbeat, and it succeeds. */
  ghost predicate BeatsAt(
      run: seq<World>, moves: seq<Move>, m: int, id: nat, token: Option<string>, prepared: PreparedBroadcast)
  {
    && 0 <= m < |moves| && m + 1 < |run| && moves[m].Act? && moves[m].id == id
    && BeatsWith(run[m], id, token, prepared)
    && id in run[m + 1].workers && run[m + 1].workers[id].pc == LookingUp(prepared)
  }

  lemma StoreGoesOnChecked(cfg: Config, s: World, id: nat, op: Op, now: int)
    requires Inv(s) && Calls(s, id, op)
    requires CarriesChecked(StoreAct(cfg, s, id, op, now).workers[id].pc)
    ensures var w, w' := s.workers[id], StoreAct(cfg, s, id, op, now).workers[id];
      && w'.token == w.token
      && (|| (CarriesChecked(w.pc) && w'.pc.prepared == w.pc.prepared)
          || (BeatsWith(s, id, w.token, w'.pc.prepared) && w'.pc.LookingUp?))
  {
    hide Inv, Exec;
    var w := s.workers[id];
    CallIsSensible(s, id, op);
    if w.pc.Heartbeating? {
      BeatNeedsTheRow(cfg, s.db, op, now);
    } else if !w.pc.Claiming? && !w.pc.Loading? && !w.pc.Saving? {
      GoesOnCarrying(w, Exec(cfg, s.db, op, now).1, LifeOf(NextLives(s, op, now), w.call.key), false);
    }
  }

  lemma BeatNeedsTheRow(cfg: Config, db: Db, op: Op, now: int)
    requires op.HeartbeatOp?
    ensures Exec(cfg, db, op, now).1 == Beat(true) ==>
      OwnedBy(db, op.key, op.token) && !Settled(db.rows[op.key].state)
  {
  }

  lemma StepGoesOnChecked(cfg: Config, s: World, move: Move, id: nat)
    requires Inv(s) && Enabled(s, move)
    requires id in Step(cfg, s, move).workers && CarriesChecked(Step(cfg, s, move).workers[id].pc)
    ensures id in s.workers
    ensures var w, w' := s.workers[id], Step(cfg, s, move).workers[id];
      && w'.token == w.token
      && (|| (CarriesChecked(w.pc) && w'.pc.prepared == w.pc.prepared)
          || (BeatsWith(s, id, w.token, w'.pc.prepared) && w'.pc.LookingUp? && move.Act? && move.id == id))
  {
    hide Inv, AfterRail, AfterStore, Exec, Fits, BeatsWith;
    if move.Act? && move.id == id {
      if OpAt(s.workers[id], move.drawn).Some? {
        StoreGoesOnChecked(cfg, s, id, OpAt(s.workers[id], move.drawn).value, move.now);
      } else {
        RailGoesOnCarrying(s.workers[id], move.answer);
      }
    }
  }

  /** Past its heartbeat a worker carries what it held the row for at an earlier, successful heartbeat. */
  lemma {:induction false} CheckedAfterBeat(
      cfg: Config, run: seq<World>, moves: seq<Move>, n: nat, id: nat) returns (m: nat)
    requires BitcoinSend.IsRun(cfg, run, moves) && n < |run|
    requires id in run[n].workers && CarriesChecked(run[n].workers[id].pc)
    ensures m < n && BeatsAt(run, moves, m, id, run[n].workers[id].token, run[n].workers[id].pc.prepared)
  {
    hide Inv, Step, Enabled;
    assert run[n - 1 + 1] == Step(cfg, run[n - 1], moves[n - 1]);
    ReachableInv(cfg, run, moves, n - 1);
    StepGoesOnChecked(cfg, run[n - 1], moves[n - 1], id);
    if CarriesChecked(run[n - 1].workers[id].pc) {
      m := CheckedAfterBeat(cfg, run, moves, n - 1, id);
    } else {
      m := n - 1;
    }
  }

  /** Only a worker at `Sending` appends a submission, and of what it carries. */
  lemma SubmitsWhatItCarries(cfg: Config, s: World, move: Move, e: Event)
    requires Enabled(s, move) && e.Sent? && Step(cfg, s, move).history == s.history + [e]
    ensures move.Act? && move.id == e.worker && e.worker in s.workers && s.workers[e.worker].pc.Sending?
    ensures s.workers[e.worker].pc.prepared.rawTx == e.rawTx && s.workers[e.worker].pc.prepared.recordId == e.recordId
    ensures s.workers[e.worker].call.key == e.life.key
  {
    hide AfterRail, AfterStore, Exec, Fits;
    assert Step(cfg, s, move).history[|s.history|] == e;
  }

  /**
   Whose submissions the node may see: every submission of a run was made by a worker that, at an
   earlier step, had a heartbeat accepted while the key's row was open under its token, and that
   carried the submitted transaction from then on.
   */
  lemma SubmittersHeldTheRow(cfg: Config, run: seq<World>, moves: seq<Move>, n: nat, i: nat)
    returns (m: nat, a: nat, token: string, prepared: PreparedBroadcast)
    requires BitcoinSend.IsRun(cfg, run, moves) && n < |run| && i < |run[n].history| && run[n].history[i].Sent?
    ensures var e := run[n].history[i];
      && m < a < n && Appends(run, a, e) && BeatsAt(run, moves, m, e.worker, Some(token), prepared)
      && run[m].workers[e.worker].call.key == e.life.key
      && e.rawTx == prepared.rawTx && e.recordId == prepared.recordId
  {
    hide Inv, Step, Enabled;
    var e := run[n].history[i];
    a := AppendedAt(cfg, run, moves, n, e);
    assert run[a + 1] == Step(cfg, run[a], moves[a]);
    SubmitsWhatItCarries(cfg, run[a], moves[a], e);
    prepared := run[a].workers[e.worker].pc.prepared;
    m := CheckedAfterBeat(cfg, run, moves, a, e.worker);
    token := run[m].workers[e.worker].token.value;
    CallStays(cfg, run, moves, m, a, e.worker);
  }

  lemma {:induction false} CallStays(cfg: Config, run: seq<World>, moves: seq<Move>, i: nat, j: nat, id: nat)
    requires BitcoinSend.IsRun(cfg, run, moves) && i <= j < |run| && id in run[i].workers
    ensures id in run[j].workers && run[j].workers[id].call == run[i].workers[id].call
    decreases j
  {
    hide Step, Enabled;
    if i < j {
      CallStays(cfg, run, moves, i, j - 1, id);
      assert run[j - 1 + 1] == Step(cfg, run[j - 1], moves[j - 1]);
      CallStep(cfg, run[j - 1], moves[j - 1], id);
    }
  }

  lemma CallStep(cfg: Config, s: World, move: Move, id: nat)
    requires Enabled(s, move) && id in s.workers
    ensures id in Step(cfg, s, move).workers && Step(cfg, s, move).workers[id].call == s.workers[id].call
  {
    hide Exec, Fits;
  }
}
