/**
 What a finished Lightning request tells its caller about the table: a success has been stored,
 an error that settles or doubts has been recorded, and a lost claim was the store's own reply.
 */
module LightningPayAnswers {
  import opened Prelude
  import opened Json
  import opened LightningStore
  import opened LightningStoreProofs
  import opened LightningPay
  import opened LightningPayProofs

  /** At step `m` of the run the request, standing there, makes this call and is given this reply. */
  ghost predicate Called(
      lease: int, run: seq<World>, moves: seq<Move>, m: int, id: nat, pc: Pc, op: Op, reply: Reply)
  {
    && 0 <= m < |moves| && m < |run| && moves[m].Act? && moves[m].id == id && id in run[m].workers
    && run[m].workers[id].pc == pc && OpAt(run[m].workers[id], moves[m].drawn) == Some(op)
    && Exec(lease, run[m].table, op, moves[m].now).1 == reply
  }

  ghost predicate WasLost(lease: int, run: seq<World>, moves: seq<Move>, n: nat, id: nat) {
    exists m: nat, pc, op, reply :: m < n && Called(lease, run, moves, m, id, pc, op, reply) && ReportsLost(reply)
  }

  ghost predicate WasSaved(
      lease: int, run: seq<World>, moves: seq<Move>, n: nat, id: nat, statusCode: int, body: Json)
  {
    exists m: nat, pc, op :: m < n && Called(lease, run, moves, m, id, pc, op, Stored)
      && op.SaveOp? && op.statusCode == statusCode && op.response == body
  }

  /** The failure was recorded: as the row's outcome, or as a doubt about it. */
  ghost predicate WasRecorded(lease: int, run: seq<World>, moves: seq<Move>, n: nat, id: nat, failure: Failure) {
    exists m: nat, pc, op :: m < n && Called(lease, run, moves, m, id, pc, op, Stored)
      && (|| (pc.MarkingFailed? && op.MarkFailedOp? && pc.failure == failure && op.statusCode == failure.statusCode)
          || (pc.MarkingUnknown? && op.MarkUnknownOp? && pc.failure == failure))
  }

  /** LND refused to create the invoice with this error. */
  ghost predicate WasRefused(run: seq<World>, moves: seq<Move>, n: nat, id: nat, failure: Failure) {
    exists m: nat :: m < n && m < |moves| && m < |run| && moves[m].Act? && moves[m].id == id
      && id in run[m].workers && run[m].workers[id].pc.Creating? && moves[m].answer == InvoiceFails(failure)
  }

  /** What an error that a request raises rests on. */
  ghost predicate Raised(lease: int, run: seq<World>, moves: seq<Move>, n: nat, id: nat, failure: Failure) {
    || (failure == CLAIM_LOST && WasLost(lease, run, moves, n, id))
    || WasRecorded(lease, run, moves, n, id, failure)
    || WasRefused(run, moves, n, id, failure)
  }

  ghost predicate Told(lease: int, run: seq<World>, moves: seq<Move>, n: nat, id: nat, outcome: LightningPay.Outcome) {
    match outcome
    case Answered(c, body) => WasSaved(lease, run, moves, n, id, c, body)
    case Failed(f) =>
      || Raised(lease, run, moves, n, id, f)
      || (f.statusCode == 500 && f.code == "internal_error" && WasLost(lease, run, moves, n, id))
  }

  ghost predicate Recorded(lease: int, run: seq<World>, moves: seq<Move>, n: nat, id: nat, w: Worker) {
    match w.pc
    case Raising(f) => Raised(lease, run, moves, n, id, f)
    case FailingClaim(f) => Raised(lease, run, moves, n, id, f)
    case Finished(outcome) => w.token.Some? ==> Told(lease, run, moves, n, id, outcome)
    case _ => true
  }

  lemma StillRaised(lease: int, run: seq<World>, moves: seq<Move>, n: nat, id: nat, f: Failure)
    requires Raised(lease, run, moves, n, id, f)
    ensures Raised(lease, run, moves, n + 1, id, f)
  {
    hide Called;
  }

  lemma StillTold(lease: int, run: seq<World>, moves: seq<Move>, n: nat, id: nat, outcome: LightningPay.Outcome)
    requires Told(lease, run, moves, n, id, outcome)
    ensures Told(lease, run, moves, n + 1, id, outcome)
  {
    hide Called;
  }

  lemma StillRecorded(lease: int, run: seq<World>, moves: seq<Move>, n: nat, id: nat, w: Worker)
    requires Recorded(lease, run, moves, n, id, w)
    ensures Recorded(lease, run, moves, n + 1, id, w)
  {
    hide Raised, Told;
    match w.pc
    case Raising(f) => StillRaised(lease, run, moves, n, id, f);
    case FailingClaim(f) => StillRaised(lease, run, moves, n, id, f);
    case Finished(outcome) => if w.token.Some? { StillTold(lease, run, moves, n, id, outcome); }
    case _ =>
  }

  // ------------------------------------------------------------ one step

  /** An error once raised is told as it is, or handled first. */
  lemma RaiseRecords(lease: int, run: seq<World>, moves: seq<Move>, n: nat, id: nat, w: Worker, f: Failure)
    requires Raised(lease, run, moves, n, id, f) && w.pc == Raise(f)
    ensures Recorded(lease, run, moves, n, id, w)
  {
    hide Raised;
  }

  lemma RailRecords(lease: int, run: seq<World>, moves: seq<Move>, n: nat, id: nat, w: Worker, answer: Answer)
    requires Fits(w, answer) && n < |moves| && moves[n].Act? && moves[n].id == id && moves[n].answer == answer
    requires n < |run| && id in run[n].workers && run[n].workers[id] == w
    ensures Recorded(lease, run, moves, n + 1, id, AfterRail(w, answer))
  {
    hide Recorded, AfterPay, AfterLookup;
    var w' := AfterRail(w, answer);
    if w.pc.Reconciling? || w.pc.AwaitingAnswer? {
      AnswersSettle(w, answer);
    }
    if answer.InvoiceFails? {
      assert WasRefused(run, moves, n + 1, id, answer.failure);
      RaiseRecords(lease, run, moves, n + 1, id, w', answer.failure);
    } else {
      QuietRecords(lease, run, moves, n + 1, id, w');
    }
  }

  lemma QuietRecords(lease: int, run: seq<World>, moves: seq<Move>, n: nat, id: nat, w: Worker)
    requires !w.pc.Raising? && !w.pc.FailingClaim? && !w.pc.Finished?
    ensures Recorded(lease, run, moves, n, id, w)
  {
  }

  lemma LostRecords(
      lease: int, run: seq<World>, moves: seq<Move>, n: nat, id: nat, w: Worker, op: Op, reply: Reply)
    requires Called(lease, run, moves, n, id, w.pc, op, reply) && reply == Refused(ClaimLost)
    requires w.pc.Submitting? || w.pc.SavingSuccess? || w.pc.MarkingFailed? || w.pc.MarkingUnknown?
    ensures Recorded(lease, run, moves, n + 1, id, AfterStore(w, reply))
  {
    hide Called, Recorded;
    assert WasLost(lease, run, moves, n + 1, id);
    RaiseRecords(lease, run, moves, n + 1, id, AfterStore(w, reply), CLAIM_LOST);
  }

  lemma StoredRecords(
      lease: int, run: seq<World>, moves: seq<Move>, n: nat, id: nat, w: Worker, op: Op)
    requires Called(lease, run, moves, n, id, w.pc, op, Stored) && OpAt(w, "") == Some(op)
    requires w.pc.Submitting? || w.pc.SavingSuccess? || w.pc.MarkingFailed? || w.pc.MarkingUnknown?
    ensures Recorded(lease, run, moves, n + 1, id, AfterStore(w, Stored))
  {
    hide Called, Recorded;
    if w.pc.MarkingFailed? || w.pc.MarkingUnknown? {
      assert WasRecorded(lease, run, moves, n + 1, id, w.pc.failure);
      RaiseRecords(lease, run, moves, n + 1, id, AfterStore(w, Stored), w.pc.failure);
    } else if w.pc.SavingSuccess? {
      SavedRecords(lease, run, moves, n, id, w, op);
    } else {
      QuietRecords(lease, run, moves, n + 1, id, AfterStore(w, Stored));
    }
  }

  lemma SavedRecords(
      lease: int, run: seq<World>, moves: seq<Move>, n: nat, id: nat, w: Worker, op: Op)
    requires Called(lease, run, moves, n, id, w.pc, op, Stored) && OpAt(w, "") == Some(op) && w.pc.SavingSuccess?
    ensures Recorded(lease, run, moves, n + 1, id, AfterStore(w, Stored))
  {
    hide Called;
  }

  /** The error handler: it reads the row, and fails the claim if it is still its own. */
  lemma HandlerRecords(
      lease: int, run: seq<World>, moves: seq<Move>, n: nat, id: nat, w: Worker, op: Op, reply: Reply)
    requires Recorded(lease, run, moves, n, id, w) && (w.pc.Raising? || w.pc.FailingClaim?)
    requires Called(lease, run, moves, n, id, w.pc, op, reply) && (reply == Stored || ReportsLost(reply) || reply.Read?)
    requires w.pc.FailingClaim? ==> !reply.Read?
    ensures Recorded(lease, run, moves, n + 1, id, AfterStore(w, reply))
  {
    hide Called, Raised;
    StillRaised(lease, run, moves, n, id, w.pc.failure);
    if w.pc.FailingClaim? && reply != Stored { assert WasLost(lease, run, moves, n + 1, id); }
  }

  lemma ClaimRecords(lease: int, run: seq<World>, moves: seq<Move>, n: nat, id: nat, w: Worker, reply: Reply)
    requires w.pc.Claiming? && w.token.None? && (reply.Claim? || reply.Replay? || reply.Refused?)
    ensures Recorded(lease, run, moves, n, id, AfterStore(w, reply))
  {
  }

  lemma RepliesOf(lease: int, table: Table, op: Op, now: int)
    ensures var reply := Exec(lease, table, op, now).1;
      match op
      case ClaimOp(_, _, _, _, _) => reply.Claim? || reply.Replay? || reply.Refused?
      case StateOp(_) => reply.Read?
      case HeartbeatOp(_, _, _) => reply.Beat?
      case _ => reply == Stored || reply == Refused(ClaimLost)
  {
  }

  lemma StoreRecords(
      lease: int, run: seq<World>, moves: seq<Move>, n: nat, id: nat, w: Worker, op: Op, reply: Reply)
    requires Recorded(lease, run, moves, n, id, w) && (w.pc.Claiming? ==> w.token.None?)
    requires OpAt(w, if op.ClaimOp? then op.drawn else "") == Some(op)
    requires Called(lease, run, moves, n, id, w.pc, op, reply)
    ensures Recorded(lease, run, moves, n + 1, id, AfterStore(w, reply))
  {
    hide Recorded, AfterStore;
    RepliesOf(lease, run[n].table, op, moves[n].now);
    if w.pc.Claiming? {
      ClaimRecords(lease, run, moves, n + 1, id, w, reply);
    } else if w.pc.Raising? || w.pc.FailingClaim? {
      HandlerRecords(lease, run, moves, n, id, w, op, reply);
    } else if reply == Stored {
      StoredRecords(lease, run, moves, n, id, w, op);
    } else {
      LostRecords(lease, run, moves, n, id, w, op, reply);
    }
  }

  // ------------------------------------------------------------ runs

  lemma ActorRecords(lease: int, run: seq<World>, moves: seq<Move>, n: nat)
    requires LightningPay.IsRun(lease, run, moves) && n < |moves| && moves[n].Act? && Inv(run[n])
    requires Recorded(lease, run, moves, n, moves[n].id, run[n].workers[moves[n].id])
    ensures Recorded(lease, run, moves, n + 1, moves[n].id, run[n + 1].workers[moves[n].id])
  {
    hide Recorded, Fits, TokenLink, AfterRail, AfterStore, Exec, ReportOf;
    var s, id := run[n], moves[n].id;
    var w := s.workers[id];
    assert run[n + 1] == Step(lease, s, moves[n]);
    assert LocalOk(s, id, w);
    match OpAt(w, moves[n].drawn)
    case None => RailRecords(lease, run, moves, n, id, w, moves[n].answer);
    case Some(op) => StoreRecords(lease, run, moves, n, id, w, op, Exec(lease, s.table, op, moves[n].now).1);
  }

  lemma OthersStay(lease: int, s: World, move: Move, id: nat)
    requires Enabled(s, move) && id in s.workers && !(move.Act? && move.id == id)
    ensures id in Step(lease, s, move).workers
    ensures var w, w' := s.workers[id], Step(lease, s, move).workers[id]; w' == w || w' == w.(pc := Crashed)
  {
    hide Fits, Exec, AfterRail, AfterStore, ReportOf;
  }

  lemma Newcomer(lease: int, s: World, move: Move, id: nat)
    requires Enabled(s, move) && id !in s.workers && id in Step(lease, s, move).workers
    ensures Step(lease, s, move).workers[id].pc.Claiming?
  {
    hide Fits, Exec, AfterRail, AfterStore, ReportOf;
  }

  lemma {:induction false} EveryWorkerRecords(lease: int, run: seq<World>, moves: seq<Move>, n: nat, id: nat)
    requires LightningPay.IsRun(lease, run, moves) && n < |run| && id in run[n].workers
    ensures Recorded(lease, run, moves, n, id, run[n].workers[id])
  {
    hide Inv, Step, Enabled, Told, Raised;
    assert run[n - 1 + 1] == Step(lease, run[n - 1], moves[n - 1]);
    ReachableInv(lease, run, moves, n - 1);
    if id in run[n - 1].workers {
      EveryWorkerRecords(lease, run, moves, n - 1, id);
      if moves[n - 1].Act? && moves[n - 1].id == id {
        ActorRecords(lease, run, moves, n - 1);
      } else {
        OthersStay(lease, run[n - 1], moves[n - 1], id);
        StillRecorded(lease, run, moves, n - 1, id, run[n - 1].workers[id]);
      }
    } else {
      Newcomer(lease, run[n - 1], moves[n - 1], id);
    }
  }

  /**
   What a finished request with a claim was told: an answer of its own was stored under its claim with
   this status; an error was recorded as the row's outcome or as a doubt, or refused by LND before
   anything was sent, or is the loss of its claim, which the store reported to one of its calls.
   */
  lemma AnswersAreRecorded(
      lease: int, run: seq<World>, moves: seq<Move>, n: nat, id: nat, outcome: LightningPay.Outcome)
    requires LightningPay.IsRun(lease, run, moves) && n < |run| && id in run[n].workers
    requires run[n].workers[id].token.Some? && run[n].workers[id].pc == Finished(outcome)
    ensures Told(lease, run, moves, n, id, outcome)
  {
    EveryWorkerRecords(lease, run, moves, n, id);
  }
}
