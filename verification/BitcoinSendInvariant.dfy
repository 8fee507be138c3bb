/**
 The inductive invariant of the Bitcoin send protocol: it ties tokens, row states,
 transaction records and worker positions together, in every reachable world.
 */
module BitcoinSendInvariant {
  import opened Prelude
  import opened Json
  import opened BitcoinStore
  import opened BitcoinStoreProofs
  import opened BitcoinSend

  // ------------------------------------------------------------ workers

  /** The prepared transaction a worker carries, and whether it has passed the heartbeat since. */
  predicate Carries(pc: Pc) {
    pc.Heartbeating? || CarriesChecked(pc)
  }

  predicate CarriesChecked(pc: Pc) {
    pc.LookingUp? || pc.TestingMempool? || pc.LookingUpRejected? || pc.Rejecting? || pc.UnlockingRejected?
    || pc.Sending? || pc.LookingUpFailed? || pc.MarkingUnknown? || pc.MarkingBroadcast?
  }

  /** Between a load that found nothing and the attempt to persist. */
  predicate Preparing(pc: Pc) {
    pc.Funding? || pc.Signing? || pc.Saving?
  }

  /** The record still holds exactly what the worker carries. */
  ghost predicate Matches(r: TxRecord, p: PreparedBroadcast) {
    && Complete(r) && r.psbt == p.psbt && r.rawTx == p.rawTx && r.txid == p.expectedTxid
    && r.requestHash == p.requestHash && r.wallet == p.wallet && r.outputs == p.outputs
    && r.feeSats == p.feeSats && r.totalOutputSats == p.totalOutputSats
  }

  /** What the row must look like while it carries the worker's token. */
  ghost predicate RowAwaits(pc: Pc, row: Row) {
    && (Preparing(pc) ==> row.state == State.Claimed)
    && (pc.Responding? && SendRoute(row.scope) ==>
          row.state == State.Broadcast && row.paymentHash.Some? && TxidIn(pc.body) == Str(row.paymentHash.value))
  }

  /** A row that carries the worker's token is the worker's own row, in the worker's life of the key. */
  ghost predicate TokenLink(s: World, w: Worker) {
    w.token.Some? ==>
      && w.token.value in s.issued && w.life <= LifeOf(s.lives, w.call.key)
      && forall k :: k in s.db.rows && s.db.rows[k].claimToken == w.token ==>
           && k == w.call.key && s.db.rows[k].scope == w.call.scope && s.db.rows[k].requestHash == w.call.hash
           && w.life == LifeOf(s.lives, k) && RowAwaits(w.pc, s.db.rows[k])
  }

  /** A carried transaction is a committed record of the key; after the heartbeat, of the worker's own life. */
  ghost predicate CarriedOk(s: World, w: Worker) {
    Carries(w.pc) ==>
      var p := w.pc.prepared;
      && p.recordId in s.db.records && p.recordId in s.origin && Matches(s.db.records[p.recordId], p)
      && s.origin[p.recordId].key == w.call.key && s.origin[p.recordId].number >= w.life
      && (CarriesChecked(w.pc) ==> s.origin[p.recordId].number == w.life)
  }

  /** Facts about the worker alone: its route, its inputs to the store, its bookkeeping of input locks. */
  ghost predicate LocalOk(w: Worker) {
    && (w.token.None? ==> w.pc.Claiming? || w.pc.Finished? || w.pc.Crashed?)
    && (w.pc.Claiming? ==> w.token.None?)
    && (w.pc.Working? ==> !SendRoute(w.call.scope))
    && (w.pc.Checking? || w.pc.Loading? || w.pc.Unlocking? ==> SendRoute(w.call.scope))
    && (Preparing(w.pc) || Carries(w.pc) ==> SendRoute(w.call.scope))
    && (w.pc.Signing? ==> w.pc.funded.psbt != "")
    && (w.pc.Saving? ==> w.pc.funded.psbt != "" && Sensible(SavePreparedOp("", "", "", w.pc.draft)))
    && LocksOk(w)
  }

  /** Which PSBTs the call must still release, or has released, at each point. */
  ghost predicate LocksOk(w: Worker) {
    && (w.persisted ==> w.fundedPsbt.Some?)
    && (w.rejectedPsbt.Some? ==> w.pc.UnlockingRejected? || w.pc.Finished? || w.pc.Crashed?)
    && (w.released != [] ==> w.pc.Finished? || w.pc.Crashed?)
    && (w.pc.Claiming? || w.pc.Checking? || w.pc.Loading? || w.pc.Funding? || w.pc.Working? ==> w.fundedPsbt.None?)
    && (w.pc.Signing? ==> !w.persisted && w.fundedPsbt == Some(w.pc.funded.psbt))
    && (w.pc.Saving? ==> !w.persisted && w.fundedPsbt == Some(w.pc.funded.psbt))
    && (w.pc.Unlocking? ==> !w.persisted && w.fundedPsbt == Some(w.pc.psbt))
    && (Carries(w.pc) || w.pc.Responding? ==> w.fundedPsbt.Some? ==> w.persisted)
    && (w.pc.UnlockingRejected? ==> w.rejectedPsbt == Some(w.pc.prepared.psbt))
    && (w.pc.Finished? ==> w.released == Owed(w))
  }

  /** The unlock requests the lock discipline calls for. */
  function Owed(w: Worker): seq<string> {
    (if w.fundedPsbt.Some? && !w.persisted then [w.fundedPsbt.value] else [])
    + (if w.rejectedPsbt.Some? then [w.rejectedPsbt.value] else [])
  }

  ghost predicate WorkerOk(s: World, w: Worker) {
    TokenLink(s, w) && CarriedOk(s, w) && LocalOk(w)
  }

  ghost predicate WorkersOk(s: World) {
    && (forall id :: id in s.workers ==> WorkerOk(s, s.workers[id]))
    && (forall i, j :: i in s.workers && j in s.workers && i != j && s.workers[i].token.Some?
          ==> s.workers[i].token != s.workers[j].token)
  }

  // ------------------------------------------------------------ records and lives

  /** Each life of a key owns at most one record, and the key's present row points to it. */
  ghost predicate OriginOk(s: World) {
    && (forall id :: id in s.origin ==> id in s.db.records && s.origin[id].number <= LifeOf(s.lives, s.origin[id].key))
    && (forall i, j :: i in s.origin && j in s.origin && s.origin[i] == s.origin[j] ==> i == j)
    && (forall k :: k in s.db.rows ==> PointsToOwn(s, k))
  }

  ghost predicate PointsToOwn(s: World, k: string)
    requires k in s.db.rows
  {
    match s.db.rows[k].preparedRecordId
    case Some(id) => id in s.origin && s.origin[id] == Life(k, LifeOf(s.lives, k))
    case None => forall id :: id in s.origin ==> s.origin[id] != Life(k, LifeOf(s.lives, k))
  }

  /** A successful send answers with the transaction that was recorded as broadcast. */
  ghost predicate SuccessOk(row: Row, records: map<nat, TxRecord>) {
    row.state == Succeeded && SendRoute(row.scope) ==>
      && row.preparedRecordId.Some? && row.preparedRecordId.value in records
      && var r := records[row.preparedRecordId.value];
         r.status == TxBroadcast && row.paymentHash == Some(r.txid) && TxidIn(row.response) == Str(r.txid)
  }

  ghost predicate SuccessesOk(s: World) {
    forall k :: k in s.db.rows ==> SuccessOk(s.db.rows[k], s.db.records)
  }

  // ------------------------------------------------------------ history

  ghost predicate HistoryOk(s: World) {
    && (forall id :: id in s.origin && id in s.db.records ==>
          Persisted(id, s.origin[id], s.db.records[id].rawTx) in s.history)
    && (forall i :: 0 <= i < |s.history| ==> EventOk(s, i))
  }

  /** A send was preceded by the commit of the very bytes it sends. */
  ghost predicate EventOk(s: World, i: int)
    requires 0 <= i < |s.history|
  {
    match s.history[i]
    case Persisted(id, life, raw) =>
      id in s.origin && id in s.db.records && s.origin[id] == life && s.db.records[id].rawTx == raw
    case Sent(_, id, life, raw) => Persisted(id, life, raw) in s.history[..i]
  }

  ghost predicate Inv(s: World) {
    DbOk(s.db) && TokensKnown(s.db, s.issued) && WorkersOk(s) && OriginOk(s) && SuccessesOk(s) && HistoryOk(s)
  }

  // ------------------------------------------------------------ frames

  /** A step of the tables that is harmless to everyone who does not own a changed row. */
  ghost predicate Harmless(s: World, s': World, tokens: set<string>) {
    && s.issued <= s'.issued
    && (forall id :: id in s.db.records ==> id in s'.db.records && SameTx(s.db.records[id], s'.db.records[id]))
    && (forall id :: id in s.origin ==> id in s'.origin && s'.origin[id] == s.origin[id])
    && (forall k :: LifeOf(s.lives, k) <= LifeOf(s'.lives, k))
    && (forall k :: k in s'.db.rows ==>
          || (s'.db.rows[k].claimToken.Some? ==> s'.db.rows[k].claimToken.value in tokens)
          || (k in s.db.rows && s'.db.rows[k] == s.db.rows[k] && LifeOf(s.lives, k) == LifeOf(s'.lives, k)))
  }

  /** A worker whose token is none of those involved is unaffected. */
  lemma BystanderOk(s: World, s': World, tokens: set<string>, w: Worker)
    requires Harmless(s, s', tokens) && WorkerOk(s, w)
    requires w.token.Some? ==> w.token.value !in tokens
    ensures WorkerOk(s', w)
  {
  }
}
