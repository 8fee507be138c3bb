/**
 The invariant of the Lightning payment protocol: it ties tokens, row states, worker
 positions and what LND has said together, and every step keeps it.
 */
module LightningPayProofs {
  import opened Prelude
  import opened Json
  import opened LightningStore
  import opened LightningStoreProofs
  import opened LightningPay
  import opened LndClient
  import PaymentLookup

  // ------------------------------------------------------------ invariant

  /** What the row looks like while it carries the worker's token. */
  ghost predicate RowAwaits(pc: Pc, row: Row) {
    match pc
    case Submitting => row.state == Claimed
    case Creating => row.state == Claimed
    case FailingClaim(_) => row.state == Claimed
    case Paying => row.state == Submitted
    case AwaitingAnswer => row.state == Submitted
    case Reconciling => row.state in {Submitted, Unknown}
    case MarkingFailed(_, _, _) => row.state in {Submitted, Unknown}
    case MarkingUnknown(_, _) => row.state in {Submitted, Unknown}
    case SavingSuccess(_, _) => row.state == Claimed <==> !PaymentRoute(row.fingerprint)
    case _ => true
  }

  ghost predicate TokenLink(s: World, w: Worker) {
    w.token.Some? ==>
      && w.token.value in s.issued
      && forall k :: k in s.table && s.table[k].claimToken == w.token ==>
           k == w.call.key && s.table[k].fingerprint == w.call.fingerprint && RowAwaits(w.pc, s.table[k])
  }

  /** Steps that only the payment route has. */
  predicate PaymentStep(pc: Pc) {
    pc.Submitting? || pc.Paying? || pc.AwaitingAnswer? || pc.Reconciling? || pc.MarkingFailed? || pc.MarkingUnknown?
  }

  /** Facts about the worker alone, and what LND has told it. */
  ghost predicate LocalOk(s: World, id: nat, w: Worker) {
    && (w.token.None? ==> w.pc.Claiming? || w.pc.Finished? || w.pc.Crashed?)
    && (w.pc.Claiming? ==> w.token.None? && !w.submitted && !w.paid)
    && (w.pc.Submitting? || w.pc.Reconciling? || w.pc.Creating? ==> !w.submitted && !w.paid)
    && (PaymentStep(w.pc) ==> PaymentRoute(w.call.fingerprint))
    && (w.pc.Creating? ==> !PaymentRoute(w.call.fingerprint))
    && (w.pc.Paying? ==> w.submitted && !w.paid)
    && (w.paid ==> w.submitted)
    && (w.submitted ==> PaymentRoute(w.call.fingerprint))
    && (w.pc.MarkingFailed? ==> SaidFailed(s, id, w.call))
    && (w.pc.MarkingUnknown? ==> SaidNeither(s, id, w.call))
    && (w.pc.SavingSuccess? && PaymentRoute(w.call.fingerprint) ==> SaidGood(s, id, w.call))
  }

  /**
   What a success rests on: LND listed this very payment as succeeded, or replied to the call
   without naming an error, about this payment or about none in particular.
   */
  ghost predicate SaidGood(s: World, id: nat, call: Call) {
    || Reported(id, call.key, Lower(call.paymentHash), SaysSucceeded) in s.history
    || Reported(id, call.key, Lower(call.paymentHash), AcceptsThis) in s.history
    || Reported(id, call.key, "", AcceptsUnnamed) in s.history
  }

  /** What a failure rests on: LND named it, about this payment or, in reply to the call, about none in particular. */
  ghost predicate SaidFailed(s: World, id: nat, call: Call) {
    || Reported(id, call.key, Lower(call.paymentHash), SaysFailed) in s.history
    || Reported(id, call.key, "", SaysFailed) in s.history
  }

  /** What a doubt rests on: an answer that neither takes nor refuses this payment, or none. */
  ghost predicate SaidNeither(s: World, id: nat, call: Call) {
    exists hash, report :: Reported(id, call.key, hash, report) in s.history && Inconclusive(report)
  }

  predicate Inconclusive(report: Report) {
    report in {SaysNothing, SaysInFlight, SpeaksOfAnother}
  }

  /** The worker's request is the one the key's row was made for. */
  ghost predicate IsFor(s: World, id: nat, key: string)
    requires key in s.table
  {
    id in s.workers && s.workers[id].call.key == key && s.workers[id].call.fingerprint == s.table[key].fingerprint
  }

  /** A worker of the row's own request has LND's word that its payment succeeded. */
  ghost predicate GoodFor(s: World, id: nat, key: string)
    requires key in s.table
  {
    IsFor(s, id, key) && SaidGood(s, id, s.workers[id].call)
  }

  ghost predicate FailedFor(s: World, id: nat, key: string)
    requires key in s.table
  {
    IsFor(s, id, key) && SaidFailed(s, id, s.workers[id].call)
  }

  ghost predicate DoubtFor(s: World, id: nat, key: string)
    requires key in s.table
  {
    IsFor(s, id, key) && SaidNeither(s, id, s.workers[id].call)
  }

  /** A submitted worker's row has left CLAIMED for good, and it is the only submitted worker of its key. */
  ghost predicate SubmittersOk(s: World) {
    && (forall i :: i in s.workers && s.workers[i].submitted ==>
          s.workers[i].call.key in s.table && s.table[s.workers[i].call.key].state != Claimed)
    && (forall i, j :: i in s.workers && j in s.workers && s.workers[i].submitted && s.workers[j].submitted && i != j
          ==> s.workers[i].call.key != s.workers[j].call.key)
  }

  ghost predicate WorkersOk(s: World) {
    && (forall i :: i in s.workers ==> TokenLink(s, s.workers[i]) && LocalOk(s, i, s.workers[i]))
    && (forall i, j :: i in s.workers && j in s.workers && i != j && s.workers[i].token.Some?
          ==> s.workers[i].token != s.workers[j].token)
    && SubmittersOk(s)
  }

  /** Has any worker of this key been allowed to pay? */
  ghost predicate EverSubmitted(s: World, key: string) {
    exists i :: i in s.workers && s.workers[i].submitted && s.workers[i].call.key == key
  }

  /** How a row may have come to its state. */
  ghost predicate OutcomeOk(s: World, key: string)
    requires key in s.table
  {
    var row := s.table[key];
    && (row.state in {Submitted, Unknown} ==> PaymentRoute(row.fingerprint))
    && (row.state == FailedFinal && EverSubmitted(s, key) ==> exists w :: FailedFor(s, w, key))
    && (row.state == Succeeded && PaymentRoute(row.fingerprint) ==> exists w :: GoodFor(s, w, key))
    && (row.state == Unknown ==> exists w :: DoubtFor(s, w, key))
  }

  /** Every call to pay was made by a worker that had been allowed to, and by each at most once. */
  ghost predicate PaymentsOk(s: World) {
    && (forall i :: 0 <= i < |s.history| && s.history[i].PayCalled? ==> PaidBy(s, s.history[i]))
    && (forall i, j :: 0 <= i < j < |s.history| && s.history[i].PayCalled? && s.history[j].PayCalled?
          ==> s.history[i].key != s.history[j].key)
  }

  ghost predicate PaidBy(s: World, e: Event)
    requires e.PayCalled?
  {
    e.worker in s.workers && s.workers[e.worker].paid && s.workers[e.worker].submitted
    && s.workers[e.worker].call.key == e.key
  }

  ghost predicate Inv(s: World) {
    && TableOk(s.table) && TokensKnown(s.table, s.issued) && WorkersOk(s) && PaymentsOk(s)
    && forall k :: k in s.table ==> OutcomeOk(s, k)
  }

  // ------------------------------------------------------------ store steps

  ghost predicate Calls(s: World, id: nat, op: Op) {
    && id in s.workers && OpAt(s.workers[id], if op.ClaimOp? then op.drawn else "") == Some(op)
    && (op.ClaimOp? ==> op.drawn != "" && op.drawn !in s.issued)
  }

  /** A row is untouched, or belongs to the caller's key and ends under the call's token or none. */
  lemma ExecTouches(lease: int, table: Table, op: Op, now: int, token: string)
    requires (op.ClaimOp? && op.drawn == token) || op.StateOp? || ActsFor(op, op.key, token)
    ensures var table' := Exec(lease, table, op, now).0;
      forall k :: k in table' ==>
        || (k in table && table'[k] == table[k])
        || (k == op.key && (table'[k].claimToken.Some? ==> table'[k].claimToken.value == token)
            && (k in table && !op.ClaimOp? ==> table[k].claimToken == Some(token)))
  {
  }

  function TokenOf(w: Worker, op: Op): string {
    if op.ClaimOp? then op.drawn else if w.token.Some? then w.token.value else ""
  }

  /** Other workers do not notice: their rows are untouched and their histories only grow. */
  lemma BystanderOk(s: World, s': World, id: nat, w: Worker, key: string, token: string)
    requires TokenLink(s, w) && LocalOk(s, id, w) && s.issued <= s'.issued && s.history <= s'.history
    requires w.token != Some(token)
    requires forall k :: k in s'.table ==>
        || (k in s.table && s'.table[k] == s.table[k])
        || (k == key && (s'.table[k].claimToken.Some? ==> s'.table[k].claimToken.value == token))
    ensures TokenLink(s', w) && LocalOk(s', id, w)
  {
  }

  lemma LocalAfterStore(s: World, id: nat, w: Worker, drawn: string, reply: Reply)
    requires LocalOk(s, id, w) && OpAt(w, drawn).Some?
    requires w.pc.Claiming? ==> reply.Claim? || reply.Replay? || reply.Refused?
    ensures LocalOk(s, id, AfterStore(w, reply))
  {
  }

  lemma TokenAfterClaim(lease: int, s: World, id: nat, op: Op, now: int)
    requires Calls(s, id, op) && op.ClaimOp? && s.workers[id].pc.Claiming? && s.workers[id].token.None?
    requires TokensKnown(s.table, s.issued)
    requires op.key in s.table ==> OutcomeOk(s, op.key)
    ensures TokenLink(StoreAct(lease, s, id, op, now), StoreAct(lease, s, id, op, now).workers[id])
  {
    assert forall k :: k in s.table ==> s.table[k].claimToken != Some(op.drawn);
  }

  /** The worker's own row after a call that leaves it with the worker. */
  lemma AwaitedRow(lease: int, table: Table, w: Worker, op: Op, now: int)
    requires OpAt(w, "") == Some(op) && !op.ClaimOp? && w.token.Some?
    requires w.call.key in table && table[w.call.key].claimToken == w.token
    requires table[w.call.key].fingerprint == w.call.fingerprint && RowAwaits(w.pc, table[w.call.key])
    ensures var (table', reply) := Exec(lease, table, op, now);
      w.call.key in table' && (table'[w.call.key].claimToken == w.token ==>
        RowAwaits(AfterStore(w, reply).pc, table'[w.call.key]))
  {
  }

  lemma TokenAfterOther(lease: int, s: World, id: nat, op: Op, now: int)
    requires Calls(s, id, op) && !op.ClaimOp? && TokenLink(s, s.workers[id]) && s.workers[id].token.Some?
    ensures TokenLink(StoreAct(lease, s, id, op, now), StoreAct(lease, s, id, op, now).workers[id])
  {
    var w, s' := s.workers[id], StoreAct(lease, s, id, op, now);
    var w' := s'.workers[id];
    ExecTouches(lease, s.table, op, now, w.token.value);
    forall k | k in s'.table && s'.table[k].claimToken == w.token
      ensures k == w.call.key && s'.table[k].fingerprint == w.call.fingerprint && RowAwaits(w'.pc, s'.table[k])
    {
      assert k in s.table && s.table[k].claimToken == w.token;
      AwaitedRow(lease, s.table, w, op, now);
    }
  }

  lemma ActorOk(lease: int, s: World, id: nat, op: Op, now: int)
    requires Inv(s) && Calls(s, id, op)
    ensures var s' := StoreAct(lease, s, id, op, now);
      TokenLink(s', s'.workers[id]) && LocalOk(s', id, s'.workers[id])
  {
    var w, s' := s.workers[id], StoreAct(lease, s, id, op, now);
    assert TokenLink(s, w) && LocalOk(s, id, w);
    LocalAfterStore(s, id, w, if op.ClaimOp? then op.drawn else "", Exec(lease, s.table, op, now).1);
    assert LocalOk(s', id, s'.workers[id]);
    if op.ClaimOp? {
      TokenAfterClaim(lease, s, id, op, now);
    } else {
      TokenAfterOther(lease, s, id, op, now);
    }
  }

  /** Acceptance of mark_submitted is the only way to become submitted, and it needs a CLAIMED row. */
  lemma SubmitsFromClaimed(lease: int, s: World, id: nat, op: Op, now: int)
    requires Calls(s, id, op)
    ensures var w, s' := s.workers[id], StoreAct(lease, s, id, op, now);
      var w' := s'.workers[id];
      && (w.submitted ==> w'.submitted) && w'.call == w.call
      && (w'.submitted && !w.submitted ==>
            && op.MarkSubmittedOp? && op.key in s.table && s.table[op.key].state == Claimed
            && op.key == w.call.key && s'.table[op.key].state == Submitted)
  {
  }

  lemma SubmittersKept(lease: int, s: World, id: nat, op: Op, now: int)
    requires TableOk(s.table) && SubmittersOk(s) && Calls(s, id, op)
    ensures SubmittersOk(StoreAct(lease, s, id, op, now))
  {
    var s' := StoreAct(lease, s, id, op, now);
    SubmitsFromClaimed(lease, s, id, op, now);
    forall i | i in s'.workers && s'.workers[i].submitted
      ensures s'.workers[i].call.key in s'.table && s'.table[s'.workers[i].call.key].state != Claimed
    {
      if s.workers[i].submitted {
        ExecGoesOnward(lease, s.table, op, now, s.workers[i].call.key);
      }
    }
  }

  /** What a call can do to the state of a row. */
  lemma StateChange(lease: int, table: Table, op: Op, now: int, k: string)
    requires k in Exec(lease, table, op, now).0
    ensures var (table', reply) := Exec(lease, table, op, now);
      || (k in table && table'[k].state == table[k].state && table'[k].fingerprint == table[k].fingerprint)
      || (k !in table && op.ClaimOp? && op.key == k && table'[k].state == Claimed)
      || (k in table && table'[k].fingerprint == table[k].fingerprint && op.key == k && ActsFor(op, k, op.token)
          && table[k].claimToken == Some(op.token) && table[k].fingerprint == op.fingerprint
          && match op
             case MarkSubmittedOp(_, _, _, _) => table'[k].state == Submitted && table[k].state == Claimed
             case MarkUnknownOp(_, _, _, _, _) => table'[k].state == Unknown && table[k].state == Submitted
             case SaveOp(_, _, _, _, _) => table'[k].state == Succeeded && !Settled(table[k].state)
             case MarkFailedOp(_, _, _, _, _, _) => table'[k].state == FailedFinal && !Settled(table[k].state)
             case _ => false)
  {
  }

  /** Once the row has left CLAIMED no further worker of the key becomes submitted. */
  lemma EverSubmittedStays(lease: int, s: World, id: nat, op: Op, now: int, k: string)
    requires Calls(s, id, op) && k in s.table && s.table[k].state != Claimed
    ensures EverSubmitted(StoreAct(lease, s, id, op, now), k) ==> EverSubmitted(s, k)
  {
    var s' := StoreAct(lease, s, id, op, now);
    SubmitsFromClaimed(lease, s, id, op, now);
    if EverSubmitted(s', k) {
      var i :| i in s'.workers && s'.workers[i].submitted && s'.workers[i].call.key == k;
      assert s.workers[i].submitted && s.workers[i].call.key == k;
    }
  }

  /** What was said about a row stays said, and requests stay what they are. */
  lemma WordsStay(s: World, s': World, k: string)
    requires k in s.table && k in s'.table && s'.table[k].fingerprint == s.table[k].fingerprint
    requires s.history <= s'.history
    requires forall i :: i in s.workers ==> i in s'.workers && s'.workers[i].call == s.workers[i].call
    ensures forall i :: GoodFor(s, i, k) ==> GoodFor(s', i, k)
    ensures forall i :: FailedFor(s, i, k) ==> FailedFor(s', i, k)
    ensures forall i :: DoubtFor(s, i, k) ==> DoubtFor(s', i, k)
  {
  }

  lemma OutcomesKept(lease: int, s: World, id: nat, op: Op, now: int, k: string)
    requires Inv(s) && Calls(s, id, op) && k in StoreAct(lease, s, id, op, now).table
    ensures OutcomeOk(StoreAct(lease, s, id, op, now), k)
  {
    hide Inv, TableOk, TokensKnown, WorkersOk, PaymentsOk, AfterStore;
    var s' := StoreAct(lease, s, id, op, now);
    StateChange(lease, s.table, op, now, k);
    if k in s.table {
      assert OutcomeOk(s, k) by { OutcomesAreOk(s); }
      if s'.table[k].state != s.table[k].state {
        OutcomeMoves(lease, s, id, op, now, k);
      } else {
        WordsStay(s, s', k);
        if s.table[k].state == FailedFinal { EverSubmittedStays(lease, s, id, op, now, k); }
      }
    }
  }

  lemma OutcomesAreOk(s: World)
    requires Inv(s)
    ensures forall k :: k in s.table ==> OutcomeOk(s, k)
  {
    hide OutcomeOk, TableOk, TokensKnown, WorkersOk, PaymentsOk;
  }

  lemma OutcomeMoves(lease: int, s: World, id: nat, op: Op, now: int, k: string)
    requires Inv(s) && Calls(s, id, op) && k in s.table && k in StoreAct(lease, s, id, op, now).table
    requires StoreAct(lease, s, id, op, now).table[k].state != s.table[k].state
    ensures OutcomeOk(StoreAct(lease, s, id, op, now), k)
  {
    var w, s' := s.workers[id], StoreAct(lease, s, id, op, now);
    StateChange(lease, s.table, op, now, k);
    assert TokenLink(s, w) && LocalOk(s, id, w);
    WordsStay(s, s', k);
    if op.MarkFailedOp? {
      FailsForAReason(s, id, op, k);
      SubmitsFromClaimed(lease, s, id, op, now);
      assert EverSubmitted(s', k) ==> EverSubmitted(s, k);
    } else if op.SaveOp? && PaymentRoute(s.table[k].fingerprint) {
      SucceedsForAReason(s, id, op, k);
    } else if op.MarkUnknownOp? {
      DoubtsForAReason(s, id, op, k);
    }
  }

  lemma DoubtsForAReason(s: World, id: nat, op: Op, k: string)
    requires Inv(s) && Calls(s, id, op) && op.MarkUnknownOp? && k == op.key
    requires k in s.table && s.table[k].claimToken == Some(op.token)
    ensures DoubtFor(s, id, k)
  {
    hide SaidNeither;
    var w := s.workers[id];
    assert TokenLink(s, w) && LocalOk(s, id, w);
  }

  /** A worker that stores a payment row's success has LND's word for it. */
  lemma SucceedsForAReason(s: World, id: nat, op: Op, k: string)
    requires Inv(s) && Calls(s, id, op) && op.SaveOp? && k == op.key
    requires k in s.table && s.table[k].claimToken == Some(op.token) && PaymentRoute(s.table[k].fingerprint)
    ensures GoodFor(s, id, k)
  {
    var w := s.workers[id];
    assert TokenLink(s, w) && LocalOk(s, id, w);
  }

  /** A worker that marks its row failed has LND's word for it, or the row never left CLAIMED. */
  lemma FailsForAReason(s: World, id: nat, op: Op, k: string)
    requires Inv(s) && Calls(s, id, op) && op.MarkFailedOp? && k == op.key
    requires k in s.table && s.table[k].claimToken == Some(op.token)
    ensures FailedFor(s, id, k) || (s.table[k].state == Claimed && !EverSubmitted(s, k))
  {
    var w := s.workers[id];
    assert TokenLink(s, w) && LocalOk(s, id, w);
  }

  lemma PaymentsKept(lease: int, s: World, id: nat, op: Op, now: int)
    requires PaymentsOk(s) && Calls(s, id, op)
    ensures PaymentsOk(StoreAct(lease, s, id, op, now))
  {
    var s' := StoreAct(lease, s, id, op, now);
    SubmitsFromClaimed(lease, s, id, op, now);
    forall i | 0 <= i < |s'.history| && s'.history[i].PayCalled?
      ensures PaidBy(s', s'.history[i])
    {
      assert PaidBy(s, s.history[i]);
    }
  }

  lemma ActorTokenIsOwn(lease: int, s: World, id: nat, op: Op, now: int)
    requires Calls(s, id, op)
    ensures var w' := StoreAct(lease, s, id, op, now).workers[id];
      w'.token == s.workers[id].token || (op.ClaimOp? && w'.token == Some(op.drawn))
  {
  }

  lemma TokensAreIssued(s: World)
    requires WorkersOk(s)
    ensures forall i :: i in s.workers && s.workers[i].token.Some? ==> s.workers[i].token.value in s.issued
  {
    forall i | i in s.workers && s.workers[i].token.Some?
      ensures s.workers[i].token.value in s.issued
    {
      assert TokenLink(s, s.workers[i]);
    }
  }

  lemma StoreActKeepsWorkers(lease: int, s: World, id: nat, op: Op, now: int)
    requires Inv(s) && Calls(s, id, op)
    ensures WorkersOk(StoreAct(lease, s, id, op, now))
  {
    hide TableOk, TokensKnown, OutcomeOk, PaymentsOk, AfterStore, Exec;
    var w, s' := s.workers[id], StoreAct(lease, s, id, op, now);
    assert TokenLink(s, w) && LocalOk(s, id, w);
    ActorOk(lease, s, id, op, now);
    ActorTokenIsOwn(lease, s, id, op, now);
    TokensAreIssued(s);
    SubmittersKept(lease, s, id, op, now);
    ExecTouches(lease, s.table, op, now, TokenOf(w, op));
    forall i | i in s'.workers && i != id
      ensures TokenLink(s', s'.workers[i]) && LocalOk(s', i, s'.workers[i])
      ensures s'.workers[i].token.Some? ==> s'.workers[i].token != s'.workers[id].token
    {
      assert TokenLink(s, s.workers[i]) && LocalOk(s, i, s.workers[i]);
      BystanderOk(s, s', i, s.workers[i], op.key, TokenOf(w, op));
    }
  }

  lemma StoreActKeepsInv(lease: int, s: World, id: nat, op: Op, now: int)
    requires Inv(s) && Calls(s, id, op)
    ensures Inv(StoreAct(lease, s, id, op, now))
  {
    var s' := StoreAct(lease, s, id, op, now);
    ExecKeepsOk(lease, s.table, op, now);
    TokensStayKnown(lease, s.table, s.issued, op, now);
    StoreActKeepsWorkers(lease, s, id, op, now);
    PaymentsKept(lease, s, id, op, now);
    forall k | k in s'.table
      ensures OutcomeOk(s', k)
    {
      OutcomesKept(lease, s, id, op, now, k);
    }
  }

  // ------------------------------------------------------------ steps without the store

  /** No answer moves a worker to a point that asks something else of its row. */
  lemma TokenAfterRail(s: World, s': World, id: nat, w: Worker, answer: Answer)
    requires TokenLink(s, w) && LocalOk(s, id, w) && Fits(w, answer)
    requires s'.table == s.table && s'.issued == s.issued
    ensures TokenLink(s', AfterRail(w, answer))
  {
    if w.token.Some? {
      forall k | k in s.table && s.table[k].claimToken == w.token
        ensures RowAwaits(AfterRail(w, answer).pc, s.table[k])
      {
        AwaitsAfterRail(w, answer, s.table[k]);
      }
    }
  }

  lemma AwaitsAfterRail(w: Worker, answer: Answer, row: Row)
    requires Fits(w, answer) && RowAwaits(w.pc, row)
    requires w.pc.Creating? <==> !PaymentRoute(row.fingerprint)
    ensures RowAwaits(AfterRail(w, answer).pc, row)
  {
    if w.pc.Reconciling? || w.pc.AwaitingAnswer? {
      AnswersSettle(w, answer);
    }
  }

  lemma AnswersSettle(w: Worker, answer: Answer)
    requires Fits(w, answer) && (w.pc.Reconciling? || w.pc.AwaitingAnswer?)
    ensures var pc := AfterRail(w, answer).pc; pc.MarkingUnknown? || pc.MarkingFailed? || pc.SavingSuccess?
  {
  }

  // what the client's dictionaries say

  lemma SettlingWords()
    ensures StateNamed("failed") == SaysFailed && StateNamed("submitted") == SaysInFlight
    ensures StateNamed("unknown") == SaysNothing
  {
    Unpadded("failed");
    Unpadded("submitted");
    Unpadded("unknown");
    assert Upper("failed") == "FAILED";
    assert Upper("submitted") == "SUBMITTED";
    assert Upper("unknown") == "UNKNOWN";
  }

  lemma Unpadded(text: string)
    requires text != "" && !Blank(text[0]) && !Blank(text[|text| - 1])
    ensures StripRight(StripLeft(text)) == text
  {
  }

  lemma SecondAndThird(fields: seq<Field>)
    requires |fields| >= 3
    requires fields[0].key == "payment_hash" && fields[1].key == "payment_error" && fields[2].key == "status"
    ensures Get(fields, "payment_error") == fields[1].value && Get(fields, "status") == fields[2].value
  {
    assert |"payment_hash"| != |"status"| && |"payment_error"| != |"status"| && |"payment_hash"| != |"payment_error"|;
    assert Get(fields, "payment_error") == Get(fields[1..], "payment_error");
    assert Get(fields, "status") == Get(fields[1..], "status") == Get(fields[1..][1..], "status");
  }

  lemma ClientFields(reply: Json, feeLimit: int)
    requires reply.Obj?
    ensures var result := LndClient.PayInvoice(reply, feeLimit);
      && result.Ok? && result.value.Obj?
      && Lower(TextOr(Get(result.value.fields, "payment_hash"))) == NamedHash(reply)
      && (IsTruthy(Get(result.value.fields, "payment_error")) <==> Refuses(reply))
      && PaymentState(result.value) == if Refuses(reply) then SaysFailed else SaysInFlight
  {
    hide StateNamed, ReplyHash;
    SecondAndThird(LndClient.PayInvoice(reply, feeLimit).value.fields);
    SettlingWords();
  }

  /**
   What a payment call leads to, exactly: success when LND names no error and its hash is this
   payment's or missing; failure when it names an error under such a hash; otherwise unknown.
   So a success is LND's word on this payment exactly when its reply carries a hash.
   */
  lemma PaySettles(w: Worker, reply: Json)
    ensures AfterPay(w, PayAnswers(reply)).SavingSuccess? <==>
      reply.Obj? && !Refuses(reply) && NamedHash(reply) in {"", Lower(w.call.paymentHash)}
    ensures AfterPay(w, PayAnswers(reply)).MarkingFailed? <==>
      Refuses(reply) && NamedHash(reply) in {"", Lower(w.call.paymentHash)}
    ensures ReportOf(w, PayAnswers(reply)) == AcceptsThis
      <==> AfterPay(w, PayAnswers(reply)).SavingSuccess? && NamedHash(reply) != ""
    ensures ReportOf(w, PayAnswers(reply)) == AcceptsUnnamed
      <==> AfterPay(w, PayAnswers(reply)).SavingSuccess? && NamedHash(reply) == ""
    ensures ReportOf(w, PayAnswers(reply)) == SaysFailed <==> AfterPay(w, PayAnswers(reply)).MarkingFailed?
  {
    hide NamedHash, PaymentState, StateNamed, LndClient.PayInvoice, TextOr;
    if reply.Obj? {
      ClientFields(reply, w.call.feeLimit);
    } else {
      assert LndClient.PayInvoice(reply, w.call.feeLimit).Err? by { NoObject(reply, w.call.feeLimit); }
    }
  }

  lemma NoObject(reply: Json, feeLimit: int)
    requires !reply.Obj?
    ensures LndClient.PayInvoice(reply, feeLimit).Err?
  {
  }

  /** An empty reply, which an answer without a body counts as, says nothing and settles the row as paid. */
  lemma EmptyReplySettles(w: Worker)
    ensures AfterPay(w, PayAnswers(Obj([]))).SavingSuccess? && ReportOf(w, PayAnswers(Obj([]))) == AcceptsUnnamed
  {
    PaySettles(w, Obj([]));
  }

  /** The route's branch for a payment state it cannot classify is dead: the client writes only two states. */
  lemma PayStateIsAlwaysKnown(reply: Json, feeLimit: int)
    requires LndClient.PayInvoice(reply, feeLimit).Ok?
    ensures PaymentState(LndClient.PayInvoice(reply, feeLimit).value) in {SaysFailed, SaysInFlight}
  {
    ClientFields(reply, feeLimit);
  }

  lemma LookupReads(found: PaymentLookup.Found)
    ensures PaymentState(FoundView(found)) ==
      if found.Listed? then StateNamed(TextOr(found.status)) else SaysNothing
  {
    SettlingWords();
    var fields := FoundView(found).fields;
    assert |"payment_hash"| != |"status"|;
    assert Get(fields, "status") == Get(fields[1..], "status") == fields[1].value;
  }

  lemma LocalAfterPay(s: World, s': World, id: nat, w: Worker, answer: Answer)
    requires LocalOk(s, id, w) && Fits(w, answer) && s.history <= s'.history && w.pc.AwaitingAnswer?
    requires Reported(id, w.call.key, HashNamed(answer), ReportOf(w, answer)) in s'.history
    ensures LocalOk(s', id, AfterRail(w, answer))
  {
    hide ReportOf, AfterPay;
    AnswersSettle(w, answer);
    PayIsBacked(w, answer);
  }

  /** A settling answer to a payment call carries LND's word for it. */
  lemma PayIsBacked(w: Worker, answer: Answer)
    requires answer.PayRaises? || answer.PayAnswers?
    ensures AfterPay(w, answer).SavingSuccess? ==>
      || (ReportOf(w, answer) == AcceptsThis && HashNamed(answer) == Lower(w.call.paymentHash))
      || (ReportOf(w, answer) == AcceptsUnnamed && HashNamed(answer) == "")
    ensures AfterPay(w, answer).MarkingFailed? ==>
      ReportOf(w, answer) == SaysFailed && HashNamed(answer) in {"", Lower(w.call.paymentHash)}
    ensures AfterPay(w, answer).MarkingUnknown? ==> Inconclusive(ReportOf(w, answer))
  {
    hide ReportOf;
    PayReports(w, answer);
    if answer.PayAnswers? { PaySettles(w, answer.reply); }
  }

  lemma PayReports(w: Worker, answer: Answer)
    requires answer.PayRaises? || answer.PayAnswers?
    ensures ReportOf(w, answer) in {AcceptsThis, AcceptsUnnamed, SaysFailed} || Inconclusive(ReportOf(w, answer))
    ensures answer.PayRaises? ==> ReportOf(w, answer) == SaysNothing
  {
    hide NamedHash, Lower;
  }

  lemma LocalAfterLookup(s: World, s': World, id: nat, w: Worker, answer: Answer)
    requires LocalOk(s, id, w) && Fits(w, answer) && s.history <= s'.history && w.pc.Reconciling?
    requires Reported(id, w.call.key, HashNamed(answer), ReportOf(w, answer)) in s'.history
    ensures LocalOk(s', id, AfterRail(w, answer))
  {
    hide ReportOf, AfterLookup;
    AnswersSettle(w, answer);
    LookupIsBacked(w, answer);
  }

  lemma LookupIsBacked(w: Worker, answer: Answer)
    requires w.pc.Reconciling? && Fits(w, answer)
    ensures AfterLookup(answer).SavingSuccess? ==>
      ReportOf(w, answer) == SaysSucceeded && HashNamed(answer) == Lower(w.call.paymentHash)
    ensures AfterLookup(answer).MarkingFailed? ==>
      ReportOf(w, answer) == SaysFailed && HashNamed(answer) == Lower(w.call.paymentHash)
    ensures AfterLookup(answer).MarkingUnknown? ==> Inconclusive(ReportOf(w, answer))
  {
    if answer.LookupAnswers? { LookupReads(answer.found); }
  }

  lemma LocalAfterRest(s: World, s': World, id: nat, w: Worker, answer: Answer)
    requires LocalOk(s, id, w) && Fits(w, answer) && s.history <= s'.history
    requires !w.pc.AwaitingAnswer? && !w.pc.Reconciling?
    ensures LocalOk(s', id, AfterRail(w, answer))
  {
  }

  lemma ActorAfterRail(s: World, id: nat, answer: Answer)
    requires Inv(s) && id in s.workers && Fits(s.workers[id], answer)
    ensures var s' := RailAct(s, id, answer); TokenLink(s', s'.workers[id]) && LocalOk(s', id, s'.workers[id])
  {
    var w, s' := s.workers[id], RailAct(s, id, answer);
    if w.pc.AwaitingAnswer? || w.pc.Reconciling? {
      assert s'.history[|s.history|] == Reported(id, w.call.key, HashNamed(answer), ReportOf(w, answer));
    }
    TokenAfterRail(s, s', id, w, answer);
    if w.pc.AwaitingAnswer? {
      LocalAfterPay(s, s', id, w, answer);
    } else if w.pc.Reconciling? {
      LocalAfterLookup(s, s', id, w, answer);
    } else {
      LocalAfterRest(s, s', id, w, answer);
    }
  }

  lemma RailActKeepsPayments(s: World, id: nat, answer: Answer)
    requires Inv(s) && id in s.workers && Fits(s.workers[id], answer)
    ensures PaymentsOk(RailAct(s, id, answer))
  {
    hide TableOk, TokensKnown, OutcomeOk, TokenLink, AfterPay, AfterLookup, ReportOf;
    var w, s' := s.workers[id], RailAct(s, id, answer);
    assert LocalOk(s, id, w);
    forall i | 0 <= i < |s'.history| && s'.history[i].PayCalled?
      ensures PaidBy(s', s'.history[i])
      ensures i < |s.history| && w.pc.Paying? ==> s'.history[i].key != w.call.key
    {
      if i < |s.history| { assert PaidBy(s, s.history[i]); }
    }
  }

  lemma RailActKeepsInv(s: World, id: nat, answer: Answer)
    requires Inv(s) && id in s.workers && Fits(s.workers[id], answer)
    ensures Inv(RailAct(s, id, answer))
  {
    var s' := RailAct(s, id, answer);
    ActorAfterRail(s, id, answer);
    RailActKeepsPayments(s, id, answer);
    NeighboursKept(s, s', id);
  }

  /** A step that leaves the table alone and only replaces one worker, keeping its key and permission. */
  lemma NeighboursKept(s: World, s': World, id: nat)
    requires Inv(s) && s'.table == s.table && s'.issued == s.issued && s.history <= s'.history && PaymentsOk(s')
    requires id in s'.workers && s'.workers == s.workers[id := s'.workers[id]]
    requires TokenLink(s', s'.workers[id]) && LocalOk(s', id, s'.workers[id])
    requires if id in s.workers
             then && s'.workers[id].token == s.workers[id].token && s'.workers[id].call == s.workers[id].call
                  && s'.workers[id].submitted == s.workers[id].submitted
             else s'.workers[id].token.None? && !s'.workers[id].submitted
    ensures Inv(s')
  {
    hide TableOk, TokensKnown, PaymentsOk, WorkersOk, TokenLink, LocalOk, OutcomeOk;
    NeighboursWork(s, s', id);
    forall k | k in s'.table
      ensures OutcomeOk(s', k)
    {
      OutcomeWithNews(s, s', id, k);
    }
  }

  lemma NeighboursWork(s: World, s': World, id: nat)
    requires WorkersOk(s) && s'.table == s.table && s'.issued == s.issued && s.history <= s'.history
    requires id in s'.workers && s'.workers == s.workers[id := s'.workers[id]]
    requires TokenLink(s', s'.workers[id]) && LocalOk(s', id, s'.workers[id])
    requires if id in s.workers
             then && s'.workers[id].token == s.workers[id].token && s'.workers[id].call == s.workers[id].call
                  && s'.workers[id].submitted == s.workers[id].submitted
             else s'.workers[id].token.None? && !s'.workers[id].submitted
    ensures WorkersOk(s')
  {
    forall i | i in s'.workers && i != id
      ensures TokenLink(s', s'.workers[i]) && LocalOk(s', i, s'.workers[i])
    {
      assert TokenLink(s, s.workers[i]) && LocalOk(s, i, s.workers[i]);
    }
    assert SubmittersOk(s');
  }

  lemma OutcomeWithNews(s: World, s': World, id: nat, k: string)
    requires k in s.table && OutcomeOk(s, k) && s'.table == s.table && s.history <= s'.history
    requires id in s'.workers && s'.workers == s.workers[id := s'.workers[id]]
    requires id in s.workers ==> s'.workers[id].call == s.workers[id].call
    requires s'.workers[id].submitted ==> id in s.workers && s.workers[id].submitted
    ensures OutcomeOk(s', k)
  {
    if EverSubmitted(s', k) {
      var i :| i in s'.workers && s'.workers[i].submitted && s'.workers[i].call.key == k;
      assert i in s.workers && s.workers[i].submitted && s.workers[i].call.key == k;
    }
    WordsStay(s, s', k);
  }

  lemma StepKeepsInv(lease: int, s: World, move: Move)
    requires Inv(s) && Enabled(s, move)
    ensures Inv(Step(lease, s, move))
  {
    match move
    case Arrive(id, call) =>
      PaymentsWithNewcomer(s, id, call);
      NeighboursKept(s, Step(lease, s, move), id);
    case Act(id, now, drawn, answer) =>
      assert LocalOk(s, id, s.workers[id]);
      if OpAt(s.workers[id], drawn).Some? {
        StoreActKeepsInv(lease, s, id, OpAt(s.workers[id], drawn).value, now);
      } else {
        RailActKeepsInv(s, id, answer);
      }
    case Crash(id) => CrashKeepsInv(lease, s, id);
  }

  lemma PaymentsWithNewcomer(s: World, id: nat, call: Call)
    requires PaymentsOk(s) && id !in s.workers
    ensures PaymentsOk(s.(workers := s.workers[id := Worker(call, None, Claiming, false, false)]))
  {
    var s' := s.(workers := s.workers[id := Worker(call, None, Claiming, false, false)]);
    forall i | 0 <= i < |s'.history| && s'.history[i].PayCalled?
      ensures PaidBy(s', s'.history[i])
    {
      assert PaidBy(s, s.history[i]);
    }
  }

  lemma CrashKeepsInv(lease: int, s: World, id: nat)
    requires Inv(s) && Enabled(s, Crash(id))
    ensures Inv(Step(lease, s, Crash(id)))
  {
    var s' := Step(lease, s, Crash(id));
    assert TokenLink(s, s.workers[id]) && LocalOk(s, id, s.workers[id]);
    forall i | 0 <= i < |s'.history| && s'.history[i].PayCalled?
      ensures PaidBy(s', s'.history[i])
    {
      assert PaidBy(s, s.history[i]);
    }
    NeighboursKept(s, s', id);
  }

  lemma {:induction false} ReachableInv(lease: int, run: seq<World>, moves: seq<Move>, i: nat)
    requires LightningPay.IsRun(lease, run, moves) && i < |run|
    ensures Inv(run[i])
  {
    if i > 0 {
      ReachableInv(lease, run, moves, i - 1);
      assert run[i - 1 + 1] == Step(lease, run[i - 1], moves[i - 1]);
      StepKeepsInv(lease, run[i - 1], moves[i - 1]);
    }
  }
}
