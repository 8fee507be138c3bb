/**
 What a settled or doubtful payment row rests on, traced back to the very answers of LND in the
 moves of the run.
 */
module LightningPayOutcomes {
  import opened Prelude
  import opened Json
  import opened LightningStore
  import opened LightningPay
  import opened LightningPayProofs
  import opened LightningPayTheorems
  import opened LndClient
  import opened LndWords
  import opened LndHashes

  /** At step `m` of the run the request hears this answer. */
  ghost predicate Hears(run: seq<World>, moves: seq<Move>, m: int, id: nat, answer: Answer) {
    && 0 <= m < |moves| && m < |run| && moves[m].Act? && moves[m].id == id && id in run[m].workers
    && OpAt(run[m].workers[id], moves[m].drawn).None? && moves[m].answer == answer
  }

  /** An answer this event reports. */
  ghost predicate ReportsAt(run: seq<World>, moves: seq<Move>, m: int, call: Call, e: Event)
    requires e.Reported?
  {
    && 0 <= m < |moves| && m < |run| && moves[m].Act? && Hears(run, moves, m, e.worker, moves[m].answer)
    && run[m].workers[e.worker].call == call && Fits(run[m].workers[e.worker], moves[m].answer)
    && (run[m].workers[e.worker].pc.Reconciling? || run[m].workers[e.worker].pc.AwaitingAnswer?)
    && HashNamed(moves[m].answer) == e.hash && ReportOf(run[m].workers[e.worker], moves[m].answer) == e.report
  }

  lemma CallStays(lease: int, s: World, move: Move, id: nat)
    requires Enabled(s, move) && id in s.workers
    ensures id in Step(lease, s, move).workers && Step(lease, s, move).workers[id].call == s.workers[id].call
  {
    hide Exec, Fits;
  }

  lemma StepReports(lease: int, s: World, move: Move, e: Event)
    requires Enabled(s, move) && e.Reported? && e in Step(lease, s, move).history && e !in s.history
    ensures move.Act? && move.id == e.worker && e.worker in s.workers && OpAt(s.workers[e.worker], move.drawn).None?
    ensures Fits(s.workers[e.worker], move.answer)
    ensures s.workers[e.worker].pc.Reconciling? || s.workers[e.worker].pc.AwaitingAnswer?
    ensures HashNamed(move.answer) == e.hash && ReportOf(s.workers[e.worker], move.answer) == e.report
  {
    hide Exec, Fits, AfterRail, AfterStore, ReportOf, HashNamed;
  }

  /** Every report in the history was heard at some step, by the worker it names. */
  lemma {:induction false} ReportedAt(lease: int, run: seq<World>, moves: seq<Move>, n: nat, e: Event) returns (m: nat)
    requires LightningPay.IsRun(lease, run, moves) && n < |run| && e.Reported? && e in run[n].history
    requires e.worker in run[n].workers
    ensures m < n && ReportsAt(run, moves, m, run[n].workers[e.worker].call, e)
  {
    hide Step, Enabled, Fits, ReportOf, HashNamed;
    var s, move := run[n - 1], moves[n - 1];
    assert run[n - 1 + 1] == Step(lease, s, move) && Enabled(s, move);
    if e in s.history {
      ReportersExist(lease, run, moves, n - 1, e);
      CallStays(lease, s, move, e.worker);
      m := ReportedAt(lease, run, moves, n - 1, e);
    } else {
      StepReports(lease, s, move, e);
      CallStays(lease, s, move, e.worker);
      m := n - 1;
    }
  }

  lemma {:induction false} ReportersExist(lease: int, run: seq<World>, moves: seq<Move>, n: nat, e: Event)
    requires LightningPay.IsRun(lease, run, moves) && n < |run| && e.Reported? && e in run[n].history
    ensures e.worker in run[n].workers
  {
    hide Step, Enabled, Fits, ReportOf, HashNamed;
    var s, move := run[n - 1], moves[n - 1];
    assert run[n - 1 + 1] == Step(lease, s, move) && Enabled(s, move);
    if e in s.history {
      ReportersExist(lease, run, moves, n - 1, e);
    } else {
      StepReports(lease, s, move, e);
    }
    CallStays(lease, s, move, e.worker);
  }

  // ------------------------------------------------------------ reading the answers

  /** LND says that this payment succeeded, or takes the call to pay without naming an error or another payment. */
  ghost predicate GoodAnswer(answer: Answer, paymentHash: string) {
    match answer
    case LookupAnswers(Listed(hash, status, _, _, _)) =>
      hash == Lower(paymentHash) && StatusSays(status, {"SUCCEEDED", "SETTLED", "COMPLETED", "COMPLETE"})
    case PayAnswers(Obj(fields)) =>
      Empty(Get(fields, "payment_error")) && NamedHash(answer.reply) in {"", Lower(paymentHash)}
    case _ => false
  }

  /** The answer says that this payment failed, or refuses the call to pay without naming another payment. */
  ghost predicate BadAnswer(answer: Answer, paymentHash: string) {
    match answer
    case LookupAnswers(Listed(hash, status, _, _, _)) =>
      hash == Lower(paymentHash) && StatusSays(status, {"FAILED", "FAILURE", "CANCELED", "CANCELLED"})
    case PayAnswers(Obj(fields)) =>
      !Empty(Get(fields, "payment_error")) && NamedHash(answer.reply) in {"", Lower(paymentHash)}
    case _ => false
  }

  lemma ReportReads(w: Worker, answer: Answer)
    requires Fits(w, answer)
    ensures ReportOf(w, answer) in {SaysSucceeded, AcceptsThis, AcceptsUnnamed} && answer.LookupAnswers?
      ==> GoodAnswer(answer, w.call.paymentHash)
    ensures ReportOf(w, answer) == SaysFailed && answer.LookupAnswers? ==> BadAnswer(answer, w.call.paymentHash)
  {
    hide StateNamed, StatusSays, TextOr, Lower;
    if answer.LookupAnswers? && answer.found.Listed? { StatusReads(answer.found.status); }
  }

  lemma PayReportReads(w: Worker, answer: Answer)
    requires answer.PayAnswers?
    ensures ReportOf(w, answer) in {SaysSucceeded, AcceptsThis, AcceptsUnnamed}
      ==> GoodAnswer(answer, w.call.paymentHash)
    ensures ReportOf(w, answer) == SaysFailed ==> BadAnswer(answer, w.call.paymentHash)
  {
    hide NamedHash, Lower;
    if answer.reply.Obj? { EmptyIsNotTruthy(Get(answer.reply.fields, "payment_error")); }
  }

  lemma AnswerReads(w: Worker, answer: Answer)
    requires Fits(w, answer)
    ensures ReportOf(w, answer) in {SaysSucceeded, AcceptsThis, AcceptsUnnamed}
      ==> GoodAnswer(answer, w.call.paymentHash)
    ensures ReportOf(w, answer) == SaysFailed ==> BadAnswer(answer, w.call.paymentHash)
  {
    hide GoodAnswer, BadAnswer;
    if answer.LookupAnswers? {
      ReportReads(w, answer);
    } else if answer.PayAnswers? {
      PayReportReads(w, answer);
    }
  }

  /** The request of this worker is the one the row was made for, and it heard the answer at step `m`. */
  ghost predicate HeardFor(
      run: seq<World>, moves: seq<Move>, m: int, n: nat, id: nat, key: string, answer: Answer)
    requires n < |run| && key in run[n].table
  {
    IsFor(run[n], id, key) && Hears(run, moves, m, id, answer) && run[m].workers[id].call == run[n].workers[id].call
  }

  /**
   A payment row is SUCCEEDED only if, at an earlier step, LND told a worker of the row's own request
   that this payment succeeded, in one of its words for it, or took the worker's call to pay without
   naming an error or another payment's hash.
   */
  lemma SuccessIsLndsWord(lease: int, run: seq<World>, moves: seq<Move>, n: nat, key: string)
    returns (m: nat, id: nat, answer: Answer)
    requires LightningPay.IsRun(lease, run, moves) && n < |run| && key in run[n].table
    requires run[n].table[key].state == Succeeded && PaymentRoute(run[n].table[key].fingerprint)
    ensures m < n && HeardFor(run, moves, m, n, id, key, answer)
    ensures GoodAnswer(answer, run[n].workers[id].call.paymentHash)
  {
    hide GoodAnswer, ReportOf, HashNamed, Fits, Lower;
    OutcomesRestOnReplies(lease, run, moves, n, key);
    id :| GoodFor(run[n], id, key);
    var call := run[n].workers[id].call;
    var e := GoodReport(run[n], id, call);
    m := ReportedAt(lease, run, moves, n, e);
    answer := moves[m].answer;
    AnswerReads(run[m].workers[id], answer);
  }

  lemma GoodReport(s: World, id: nat, call: Call) returns (e: Event)
    requires SaidGood(s, id, call)
    ensures e in s.history && e.Reported? && e.worker == id && e.report in {SaysSucceeded, AcceptsThis, AcceptsUnnamed}
  {
    hide Lower;
    var hash := Lower(call.paymentHash);
    if Reported(id, call.key, hash, SaysSucceeded) in s.history {
      e := Reported(id, call.key, hash, SaysSucceeded);
    } else if Reported(id, call.key, hash, AcceptsThis) in s.history {
      e := Reported(id, call.key, hash, AcceptsThis);
    } else {
      e := Reported(id, call.key, "", AcceptsUnnamed);
    }
  }

  /**
   A payment row that LND was asked to pay is FAILED_FINAL only if, at an earlier step, LND told a
   worker of the row's own request that this payment failed, in one of its words for it, or refused
   the worker's call to pay without naming another payment's hash.
   */
  lemma FailureIsLndsWord(lease: int, run: seq<World>, moves: seq<Move>, n: nat, key: string)
    returns (m: nat, id: nat, answer: Answer)
    requires LightningPay.IsRun(lease, run, moves) && n < |run| && key in run[n].table
    requires run[n].table[key].state == FailedFinal && PaymentRoute(run[n].table[key].fingerprint)
    requires exists w :: PayCalled(w, key) in run[n].history
    ensures m < n && HeardFor(run, moves, m, n, id, key, answer)
    ensures BadAnswer(answer, run[n].workers[id].call.paymentHash)
  {
    hide BadAnswer, ReportOf, HashNamed, Fits, Lower;
    OutcomesRestOnReplies(lease, run, moves, n, key);
    id :| FailedFor(run[n], id, key);
    var call := run[n].workers[id].call;
    var e := if Reported(id, call.key, Lower(call.paymentHash), SaysFailed) in run[n].history
             then Reported(id, call.key, Lower(call.paymentHash), SaysFailed)
             else Reported(id, call.key, "", SaysFailed);
    m := ReportedAt(lease, run, moves, n, e);
    answer := moves[m].answer;
    AnswerReads(run[m].workers[id], answer);
  }

  /** The answer neither takes nor refuses this payment, or there was none. */
  ghost predicate OpenAnswer(answer: Answer, paymentHash: string) {
    || answer.LookupRaises? || answer.PayRaises?
    || (answer.LookupAnswers? && (answer.found.Listed? ==>
          && !StatusSays(answer.found.status, {"SUCCEEDED", "SETTLED", "COMPLETED", "COMPLETE"})
          && !StatusSays(answer.found.status, {"FAILED", "FAILURE", "CANCELED", "CANCELLED"})))
    || (answer.PayAnswers? && (answer.reply.Obj? ==> NamedHash(answer.reply) !in {"", Lower(paymentHash)}))
  }

  lemma OpenReads(w: Worker, answer: Answer)
    requires Fits(w, answer) && (w.pc.Reconciling? || w.pc.AwaitingAnswer?) && Inconclusive(ReportOf(w, answer))
    ensures OpenAnswer(answer, w.call.paymentHash)
  {
    hide StateNamed, StatusSays, TextOr, Lower, NamedHash;
    if answer.LookupAnswers? && answer.found.Listed? { StatusReads(answer.found.status); }
  }

  /**
   A row is UNKNOWN only if, at an earlier step, a worker of the row's own request asked LND about its
   payment, or to pay it, and got no answer or one that neither took nor refused this payment.
   */
  lemma DoubtIsLndsSilence(lease: int, run: seq<World>, moves: seq<Move>, n: nat, key: string)
    returns (m: nat, id: nat, answer: Answer)
    requires LightningPay.IsRun(lease, run, moves) && n < |run| && key in run[n].table
    requires run[n].table[key].state == Unknown
    ensures m < n && HeardFor(run, moves, m, n, id, key, answer)
    ensures OpenAnswer(answer, run[n].workers[id].call.paymentHash)
  {
    hide OpenAnswer, ReportOf, HashNamed, Fits;
    ReachableInv(lease, run, moves, n);
    assert OutcomeOk(run[n], key);
    id :| DoubtFor(run[n], id, key);
    var hash, report :|
      Reported(id, run[n].workers[id].call.key, hash, report) in run[n].history && Inconclusive(report);
    m := ReportedAt(lease, run, moves, n, Reported(id, run[n].workers[id].call.key, hash, report));
    answer := moves[m].answer;
    OpenReads(run[m].workers[id], answer);
  }
}
