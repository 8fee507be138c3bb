/**
 What the Lightning adapter guarantees about every run: LND is asked to pay at most once
 per key, and what a settled row rests on.
 */
module LightningPayTheorems {
  import opened Prelude
  import opened Json
  import opened LightningStore
  import opened LightningStoreProofs
  import opened LightningPay
  import opened LightningPayProofs
  import opened LightningStoreClocks

  /** However many requests, crashes, stalls and takeovers there are, LND is asked to pay at most once per key. */
  lemma PaidAtMostOncePerKey(lease: int, run: seq<World>, moves: seq<Move>, n: nat, i: nat, j: nat)
    requires LightningPay.IsRun(lease, run, moves) && n < |run| && i < j < |run[n].history|
    requires run[n].history[i].PayCalled? && run[n].history[j].PayCalled?
    ensures run[n].history[i].key != run[n].history[j].key
  {
    ReachableInv(lease, run, moves, n);
  }

  /** The call to pay follows an accepted mark_submitted: its row is there and can never be CLAIMED again. */
  lemma PaidOnlyWhenSubmitted(lease: int, run: seq<World>, moves: seq<Move>, n: nat, m: nat, i: nat)
    requires LightningPay.IsRun(lease, run, moves) && n <= m < |run| && i < |run[n].history|
    requires run[n].history[i].PayCalled?
    ensures run[n].history[i].key in run[m].table && run[m].table[run[n].history[i].key].state != Claimed
  {
    ReachableInv(lease, run, moves, m);
    HistoryGrows(lease, run, moves, n, m);
    assert PaidBy(run[m], run[m].history[i]);
  }

  lemma {:induction false} HistoryGrows(lease: int, run: seq<World>, moves: seq<Move>, n: nat, m: nat)
    requires LightningPay.IsRun(lease, run, moves) && n <= m < |run|
    ensures run[n].history <= run[m].history
    decreases m
  {
    if n < m {
      HistoryGrows(lease, run, moves, n, m - 1);
      assert run[m - 1 + 1] == Step(lease, run[m - 1], moves[m - 1]);
    }
  }

  lemma PayersWereAllowed(s: World, key: string)
    requires PaymentsOk(s)
    ensures (exists w :: PayCalled(w, key) in s.history) ==> EverSubmitted(s, key)
  {
    if exists w :: PayCalled(w, key) in s.history {
      var w :| PayCalled(w, key) in s.history;
      var i :| 0 <= i < |s.history| && s.history[i] == PayCalled(w, key);
      assert PaidBy(s, s.history[i]);
    }
  }

  /**
   What a settled payment row rests on, in the words LND gave to a worker of the row's own request.
   Failed: LND named the failure, of this payment or in reply to the call to pay, or it was never
   asked to pay. Succeeded: LND listed this payment, under its hash, as succeeded, or answered the
   call to pay without naming an error, about this payment or about none in particular.
   */
  lemma OutcomesRestOnReplies(lease: int, run: seq<World>, moves: seq<Move>, n: nat, key: string)
    requires LightningPay.IsRun(lease, run, moves) && n < |run| && key in run[n].table
    requires PaymentRoute(run[n].table[key].fingerprint)
    ensures run[n].table[key].state == FailedFinal ==>
      (exists w :: FailedFor(run[n], w, key)) || !(exists w :: PayCalled(w, key) in run[n].history)
    ensures run[n].table[key].state == Succeeded ==>
      exists w :: GoodFor(run[n], w, key)
  {
    ReachableInv(lease, run, moves, n);
    var s := run[n];
    assert OutcomeOk(s, key);
    PayersWereAllowed(s, key);
  }

  /**
   The very call that settles: a row that had left CLAIMED is failed only by a worker of the row's
   request to whom LND named the failure; it succeeds only for one to whom LND listed its payment,
   under its hash, as succeeded, or answered the call to pay without naming an error or another payment.
   */
  lemma SettlesOnReplies(lease: int, run: seq<World>, moves: seq<Move>, n: nat, id: nat, now: int, op: Op)
    requires LightningPay.IsRun(lease, run, moves) && n < |run| && Calls(run[n], id, op) && op.key in run[n].table
    requires PaymentRoute(run[n].table[op.key].fingerprint) && !Settled(run[n].table[op.key].state)
    ensures var s, table' := run[n], Exec(lease, run[n].table, op, now).0;
      && (table'[op.key].state == Succeeded ==> GoodFor(s, id, op.key))
      && (table'[op.key].state == FailedFinal && s.table[op.key].state != Claimed ==> FailedFor(s, id, op.key))
  {
    ReachableInv(lease, run, moves, n);
    var s := run[n];
    assert TokenLink(s, s.workers[id]) && LocalOk(s, id, s.workers[id]);
    ExecGoesOnward(lease, s.table, op, now, op.key);
    StateChange(lease, s.table, op, now, op.key);
    if op.MarkFailedOp? && s.table[op.key].claimToken == Some(op.token) {
      FailsForAReason(s, id, op, op.key);
    }
  }

  /** A settled success about which LND has said nothing: no hash, no error, no listing. */
  ghost predicate Guessed(s: World, key: string) {
    && key in s.table && s.table[key].state == Succeeded && PaymentRoute(s.table[key].fingerprint)
    && s.history == [PayCalled(0, key), Reported(0, key, "", AcceptsUnnamed)]
  }

  /** Such a success is reachable: the whole run is one request whose payment call is answered by an empty body. */
  lemma SuccessCanBeGuessed(lease: int, call: Call)
    requires PaymentRoute(call.fingerprint)
    ensures exists s :: Reachable(lease, s) && Guessed(s, call.key)
  {
    var s := ClaimedOnce(lease, call);
    var paying := PaidOnce(lease, s, call);
    var end := AnsweredEmpty(lease, paying, call);
    assert Guessed(end, call.key);
  }

  ghost predicate AtPc(s: World, call: Call, pc: Pc, state: State) {
    && 0 in s.workers && s.workers[0].call == call && s.workers[0].token == Some("t") && s.workers[0].pc == pc
    && OwnedBy(s.table, call.key, call.fingerprint, "t") && s.table[call.key].state == state
  }

  lemma ClaimedOnce(lease: int, call: Call) returns (s: World)
    requires PaymentRoute(call.fingerprint)
    ensures Reachable(lease, s) && AtPc(s, call, Submitting, Claimed) && s.history == []
  {
    InitialIsReachable(lease);
    var s1 := Step(lease, Initial(), Arrive(0, call));
    StepIsReachable(lease, Initial(), Arrive(0, call));
    s := Step(lease, s1, Act(0, 0, "t", Quiet));
    StepIsReachable(lease, s1, Act(0, 0, "t", Quiet));
  }

  lemma PaidOnce(lease: int, s: World, call: Call) returns (s': World)
    requires Reachable(lease, s) && AtPc(s, call, Submitting, Claimed) && s.history == []
    ensures Reachable(lease, s') && AtPc(s', call, AwaitingAnswer, Submitted) && s'.history == [PayCalled(0, call.key)]
  {
    var paying := Step(lease, s, Act(0, 0, "", Quiet));
    StepIsReachable(lease, s, Act(0, 0, "", Quiet));
    assert AtPc(paying, call, Paying, Submitted);
    s' := Step(lease, paying, Act(0, 0, "", Quiet));
    StepIsReachable(lease, paying, Act(0, 0, "", Quiet));
  }

  lemma AnsweredEmpty(lease: int, s: World, call: Call) returns (s': World)
    requires Reachable(lease, s) && AtPc(s, call, AwaitingAnswer, Submitted) && s.history == [PayCalled(0, call.key)]
    requires PaymentRoute(call.fingerprint)
    ensures Reachable(lease, s') && Guessed(s', call.key)
  {
    hide ReportOf, AfterPay;
    var answer := PayAnswers(Obj([]));
    EmptyReplySettles(s.workers[0]);
    var answered := Step(lease, s, Act(0, 0, "", answer));
    StepIsReachable(lease, s, Act(0, 0, "", answer));
    assert answered.workers[0].pc.SavingSuccess?;
    s' := Step(lease, answered, Act(0, 0, "", Quiet));
    StepIsReachable(lease, answered, Act(0, 0, "", Quiet));
  }

  /** The generic 4xx handler only ever fails a row for which no payment was submitted, so nothing was sent. */
  lemma HandlerFailsOnlyUnsent(lease: int, run: seq<World>, moves: seq<Move>, n: nat, id: nat)
    requires LightningPay.IsRun(lease, run, moves) && n < |run|
    requires id in run[n].workers && run[n].workers[id].pc.FailingClaim?
    ensures var s, w := run[n], run[n].workers[id];
      w.call.key in s.table && s.table[w.call.key].claimToken == w.token && w.token.Some? ==>
        s.table[w.call.key].state == Claimed && !(exists p :: PayCalled(p, w.call.key) in s.history)
  {
    ReachableInv(lease, run, moves, n);
    var s, w := run[n], run[n].workers[id];
    assert TokenLink(s, w);
    if w.call.key in s.table && s.table[w.call.key].claimToken == w.token && w.token.Some? {
      PayersWereAllowed(s, w.call.key);
    }
  }

  /** A request that finds an earlier attempt unresolved asks LND and never pays. */
  lemma RetriesNeverPay(lease: int, run: seq<World>, moves: seq<Move>, n: nat, id: nat, other: nat)
    requires LightningPay.IsRun(lease, run, moves) && n < |run|
    requires id in run[n].workers && other in run[n].workers && id != other
    requires run[n].workers[id].call.key == run[n].workers[other].call.key && run[n].workers[other].submitted
    ensures !run[n].workers[id].paid && !run[n].workers[id].pc.Paying?
    ensures run[n].workers[id].call.key in run[n].table
    ensures run[n].workers[id].pc.Submitting? ==>
      run[n].table[run[n].workers[id].call.key].claimToken != run[n].workers[id].token
  {
    ReachableInv(lease, run, moves, n);
    var s := run[n];
    assert LocalOk(s, id, s.workers[id]) && TokenLink(s, s.workers[id]);
  }

  // ------------------------------------------------------------ links to the store's own theorems

  ghost predicate IsTheCall(lease: int, s: World, s': World, op: Op, now: int) {
    && Sensible(op) && (op.ClaimOp? ==> op.drawn !in s.issued)
    && s'.table == Exec(lease, s.table, op, now).0 && s'.issued == Issue(s.issued, op)
  }

  ghost predicate CallsOrStutters(lease: int, s: World, s': World) {
    (s'.table == s.table && s'.issued == s.issued) || exists op, now :: IsTheCall(lease, s, s', op, now)
  }

  /** Every step is one store call with a fresh identifier, or leaves the table alone. */
  lemma StepIsAStoreCall(lease: int, s: World, move: Move)
    requires Inv(s) && Enabled(s, move)
    ensures CallsOrStutters(lease, s, Step(lease, s, move))
  {
    match move
    case Act(id, now, drawn, _) =>
      if OpAt(s.workers[id], drawn).Some? {
        assert LocalOk(s, id, s.workers[id]);
        assert IsTheCall(lease, s, Step(lease, s, move), OpAt(s.workers[id], drawn).value, now);
      }
    case _ =>
  }

  lemma RunStepIsAStoreCall(lease: int, run: seq<World>, moves: seq<Move>, i: nat)
    requires LightningPay.IsRun(lease, run, moves) && i < |moves|
    ensures CallsOrStutters(lease, run[i], run[i + 1])
  {
    ReachableInv(lease, run, moves, i);
    StepIsAStoreCall(lease, run[i], moves[i]);
  }

  lemma UnheldOneStep(lease: int, s: World, s': World, key: string, token: string)
    requires CallsOrStutters(lease, s, s') && token in s.issued && !Holds(s.table, key, token)
    ensures token in s'.issued && !Holds(s'.table, key, token)
  {
    if s'.table != s.table || s'.issued != s.issued {
      var op, now :| IsTheCall(lease, s, s', op, now);
      UnheldStays(lease, s.table, s.issued, op, now, key, token);
    }
  }

  lemma {:induction false} UnheldInRun(
      lease: int, run: seq<World>, moves: seq<Move>, i: nat, j: nat, key: string, token: string)
    requires LightningPay.IsRun(lease, run, moves) && i <= j < |run|
    requires token in run[i].issued && !Holds(run[i].table, key, token)
    ensures token in run[j].issued && !Holds(run[j].table, key, token)
    decreases j
  {
    if i < j {
      UnheldInRun(lease, run, moves, i, j - 1, key, token);
      RunStepIsAStoreCall(lease, run, moves, j - 1);
      UnheldOneStep(lease, run[j - 1], run[j - 1 + 1], key, token);
    }
  }

  lemma {:induction false} HeldIsIssuedInRun(
      lease: int, run: seq<World>, moves: seq<Move>, i: nat, j: nat, key: string, token: string)
    requires LightningPay.IsRun(lease, run, moves) && i <= j < |run| && Holds(run[i].table, key, token)
    ensures token in run[j].issued
    decreases j
  {
    if i < j {
      HeldIsIssuedInRun(lease, run, moves, i, j - 1, key, token);
      RunStepIsAStoreCall(lease, run, moves, j - 1);
    } else {
      ReachableInv(lease, run, moves, i);
    }
  }

  /** The worker's next call, if it is made for its claim, changes nothing and reports the loss. */
  ghost predicate CallIsLost(lease: int, s: World, id: nat, now: int)
    requires id in s.workers
  {
    var call := OpAt(s.workers[id], "");
    call.Some? && !call.value.StateOp? ==>
      Exec(lease, s.table, call.value, now).0 == s.table && ReportsLost(Exec(lease, s.table, call.value, now).1)
  }

  /**
   Fencing of a request: once its row has carried its token and carries it no more, every later
   call it makes on behalf of the claim leaves the table as it is and is told the claim is lost.
   */
  lemma FencedWorker(
      lease: int, run: seq<World>, moves: seq<Move>, i: nat, m: nat, j: nat, id: nat, token: string, now: int)
    requires LightningPay.IsRun(lease, run, moves) && i <= m <= j < |run|
    requires id in run[j].workers && run[j].workers[id].token == Some(token)
    requires Holds(run[i].table, run[j].workers[id].call.key, token)
    requires !Holds(run[m].table, run[j].workers[id].call.key, token)
    ensures CallIsLost(lease, run[j], id, now)
  {
    var w := run[j].workers[id];
    HeldIsIssuedInRun(lease, run, moves, i, m, w.call.key, token);
    UnheldInRun(lease, run, moves, m, j, w.call.key, token);
    ReachableInv(lease, run, moves, j);
    UnheldWorkerLoses(lease, run[j], id, now);
  }

  lemma UnheldWorkerLoses(lease: int, s: World, id: nat, now: int)
    requires id in s.workers && LocalOk(s, id, s.workers[id]) && s.workers[id].token.Some?
    requires !Holds(s.table, s.workers[id].call.key, s.workers[id].token.value)
    ensures CallIsLost(lease, s, id, now)
  {
    var w := s.workers[id];
    if OpAt(w, "").Some? && !w.pc.Raising? {
      LostClaimIsNoOp(lease, s.table, OpAt(w, "").value, now, w.call.key, w.token.value);
    }
  }

  /** In a run a request's call for its claim is refused as lost if and only if the row does not carry its token. */
  lemma LostExactlyWhen(lease: int, run: seq<World>, moves: seq<Move>, n: nat, id: nat, op: Op, now: int)
    requires LightningPay.IsRun(lease, run, moves) && n < |run| && id in run[n].workers
    requires OpAt(run[n].workers[id], "") == Some(op) && !op.ClaimOp? && !op.StateOp?
    ensures run[n].workers[id].token.Some?
    ensures ReportsLost(Exec(lease, run[n].table, op, now).1)
      <==> !Holds(run[n].table, run[n].workers[id].call.key, run[n].workers[id].token.value)
  {
    hide Exec;
    ReachableInv(lease, run, moves, n);
    var s, w := run[n], run[n].workers[id];
    assert TokenLink(s, w) && LocalOk(s, id, w);
    OwnersAreAccepted(lease, s.table, op, now, w.call.key, w.token.value);
  }

  lemma OnwardOneStep(lease: int, s: World, s': World, key: string)
    requires CallsOrStutters(lease, s, s') && TableOk(s.table) && key in s.table
    ensures key in s'.table && Onward(s.table[key], s'.table[key])
  {
    if s'.table != s.table || s'.issued != s.issued {
      var op, now :| IsTheCall(lease, s, s', op, now);
      ExecGoesOnward(lease, s.table, op, now, key);
    }
  }

  lemma {:induction false} SettledStays(
      lease: int, run: seq<World>, moves: seq<Move>, i: nat, j: nat, key: string)
    requires LightningPay.IsRun(lease, run, moves) && i <= j < |run|
    requires key in run[i].table && Settled(run[i].table[key].state)
    ensures key in run[j].table && run[j].table[key] == run[i].table[key]
    decreases j
  {
    if i < j {
      SettledStays(lease, run, moves, i, j - 1, key);
      ReachableInv(lease, run, moves, j - 1);
      RunStepIsAStoreCall(lease, run, moves, j - 1);
      OnwardOneStep(lease, run[j - 1], run[j - 1 + 1], key);
    }
  }

  /**
   Replay in the whole system: a request that claims a settled key later ends with the stored
   status and body if it is the same request, and is refused if it is another.
   */
  lemma SettledKeysReplay(
      lease: int, run: seq<World>, moves: seq<Move>, i: nat, j: nat, id: nat, now: int, drawn: string)
    requires LightningPay.IsRun(lease, run, moves) && i <= j < |run|
    requires id in run[j].workers && run[j].workers[id].pc.Claiming?
    requires run[j].workers[id].call.key in run[i].table
    requires Settled(run[i].table[run[j].workers[id].call.key].state)
    requires Enabled(run[j], Act(id, now, drawn, Quiet))
    ensures var call, s' := run[j].workers[id].call, Step(lease, run[j], Act(id, now, drawn, Quiet));
      var row := run[i].table[call.key];
      && s'.table == run[j].table
      && s'.workers[id].pc == Finished(if call.fingerprint == row.fingerprint
                                       then Answered(row.statusCode, row.response)
                                       else Failed(RefusalFailure(Conflict)))
  {
    SettledStays(lease, run, moves, i, j, run[j].workers[id].call.key);
  }
}
