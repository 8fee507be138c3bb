/** Who is told that its claim is lost: in a run, exactly those that do not hold it, but for one case. */
module BitcoinSendOwners {
  import opened Prelude
  import opened BitcoinStore
  import opened BitcoinStoreProofs
  import opened BitcoinStoreClocks
  import opened BitcoinSend
  import opened BitcoinSendInvariant
  import opened BitcoinSendSteps

  /** A worker past its heartbeat that holds the row finds it past CLAIMED, with the txid it carries. */
  lemma CarrierFinds(s: World, id: nat)
    requires Inv(s) && id in s.workers && CarriesChecked(s.workers[id].pc) && s.workers[id].token.Some?
    requires OwnedBy(s.db, s.workers[id].call.key, s.workers[id].token.value)
    ensures var row := s.db.rows[s.workers[id].call.key];
      && row.state in {State.Prepared, State.Broadcast, Unknown}
      && row.paymentHash == Some(s.workers[id].pc.prepared.expectedTxid)
  {
    hide Inv, LocalOk, RowAwaits;
    WorkerIsOk(s, id);
    OriginsOk(s);
    assert RowOk(s.db.rows[s.workers[id].call.key], s.db.records) && PointsToOwn(s, s.workers[id].call.key);
  }

  lemma HolderIsFor(s: World, id: nat)
    requires Inv(s) && id in s.workers && s.workers[id].token.Some?
    requires OwnedBy(s.db, s.workers[id].call.key, s.workers[id].token.value)
    ensures var row, call := s.db.rows[s.workers[id].call.key], s.workers[id].call;
      row.scope == call.scope && row.requestHash == call.hash
  {
    hide Inv, LocalOk, RowAwaits, CarriedOk;
    WorkerIsOk(s, id);
  }

  /**
   In a run a worker's call on behalf of its claim is refused as lost if and only if the row no
   longer carries its token, or it is a rejection and the row says BROADCAST.
   */
  lemma LostExactlyWhen(cfg: Config, run: seq<World>, moves: seq<Move>, n: nat, id: nat, op: Op, now: int)
    requires BitcoinSend.IsRun(cfg, run, moves) && n < |run| && id in run[n].workers
    requires OpAt(run[n].workers[id], "") == Some(op) && !op.ClaimOp? && !op.LoadPreparedOp?
    ensures run[n].workers[id].token.Some?
    ensures var s, w := run[n], run[n].workers[id];
      ReportsLost(Exec(cfg, s.db, op, now).1) <==>
        || !OwnedBy(s.db, w.call.key, w.token.value)
        || (w.pc.Rejecting? && s.db.rows[w.call.key].state == State.Broadcast)
  {
    hide Inv, Exec, DbOk;
    ReachableInv(cfg, run, moves, n);
    var s, w := run[n], run[n].workers[id];
    assert Calls(s, id, op);
    CallIsSensible(s, id, op);
    TablesOk(s);
    OwnersAreAccepted(cfg, s.db, op, now, w.call.key, w.token.value);
    if OwnedBy(s.db, w.call.key, w.token.value) {
      HolderIsFor(s, id);
      if CarriesChecked(w.pc) { CarrierFinds(s, id); }
    }
  }
}
