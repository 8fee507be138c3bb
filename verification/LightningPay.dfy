/**
 The Lightning adapter's write requests as a labelled transition system: any number of
 payment and invoice requests, each a worker that may crash or stall between any two of
 its steps, over one store. LND's answers, the clock and the drawn identifiers are the
 adversary's.
 */
module LightningPay {
  import opened Prelude
  import opened Json
  import opened LightningStore
  import opened LightningStoreProofs
  import opened LndClient
  import PaymentLookup

  /** One validated request; the payment hash is the one LND decoded from the invoice. */
  datatype Call = Call(key: string, fingerprint: Fingerprint, paymentHash: string, network: string, feeLimit: int)

  const PAYMENT_PATH := "/v1/payments"

  predicate PaymentRoute(fp: Fingerprint) {
    fp.verb == "POST" && fp.path == PAYMENT_PATH
  }

  datatype Failure = Failure(statusCode: int, code: string, message: string)

  datatype Outcome = Answered(statusCode: int, body: Json) | Failed(failure: Failure)

  datatype Pc =
    | Claiming
    | Reconciling
    | Submitting
    | Paying
    | AwaitingAnswer
    | Creating
    | SavingSuccess(statusCode: int, body: Json)
    | MarkingFailed(code: string, text: string, failure: Failure)
    | MarkingUnknown(error: string, failure: Failure)
    | Raising(failure: Failure)
    | FailingClaim(failure: Failure)
    | Finished(outcome: Outcome)
    | Crashed

  datatype Answer =
    | Quiet
    | LookupRaises(error: string)
    | LookupAnswers(found: PaymentLookup.Found)
    | PayRaises(error: string)
    | PayAnswers(reply: Json)
    | InvoiceFails(failure: Failure)
    | InvoiceCreated(result: Json)

  /** `submitted`: the worker's mark_submitted was accepted; `paid`: it has called LND. */
  datatype Worker = Worker(call: Call, token: Option<string>, pc: Pc, submitted: bool, paid: bool)

  /**
   What LND's own words say about the payment. The last three are replies to a payment call
   that name no error: about this payment, about none in particular, about another.
   */
  datatype Report =
    | SaysSucceeded | SaysInFlight | SaysFailed | SaysNothing
    | AcceptsThis | AcceptsUnnamed | SpeaksOfAnother

  /** `hash` is the payment hash LND's words are under, in lower case; empty if they name none. */
  datatype Event =
    | PayCalled(worker: nat, key: string)
    | Reported(worker: nat, key: string, hash: string, report: Report)

  datatype World = World(table: Table, workers: map<nat, Worker>, issued: set<string>, history: seq<Event>)

  datatype Move =
    | Arrive(id: nat, call: Call)
    | Act(id: nat, now: int, drawn: string, answer: Answer)
    | Crash(id: nat)

  function Initial(): World {
    World(map[], map[], {}, [])
  }

  // ------------------------------------------------------------ classification

  predicate Blank(c: char) {
    c == ' ' || '\t' <= c <= '\r' || '\U{1c}' <= c <= '\U{1f}'
  }

  function StripLeft(text: string): string {
    if text != "" && Blank(text[0]) then StripLeft(text[1..]) else text
  }

  function StripRight(text: string): string {
    if text != "" && Blank(text[|text| - 1]) then StripRight(text[..|text| - 1]) else text
  }

  /** `_payment_state` of a dictionary one of the client's methods returned. */
  function PaymentState(payment: Json): Report {
    StateNamed(if payment.Obj? then TextOr(Get(payment.fields, "status")) else "")
  }

  function StateNamed(status: string): Report {
    var text := Upper(StripRight(StripLeft(status)));
    if text in {"SUCCEEDED", "SETTLED", "COMPLETED", "COMPLETE"} then SaysSucceeded
    else if text in {"FAILED", "FAILURE", "CANCELED", "CANCELLED"} then SaysFailed
    else if text in {"IN_FLIGHT", "INITIATED", "PENDING", "SUBMITTED"} then SaysInFlight
    else SaysNothing
  }

  /** What LND has said, read off its reply and not off what the client makes of it. */
  function ReportOf(w: Worker, answer: Answer): Report {
    match answer
    case LookupAnswers(found) => if found.Listed? then StateNamed(TextOr(found.status)) else SaysNothing
    case PayAnswers(reply) =>
      if !reply.Obj? then SaysNothing
      else if NamedHash(reply) != "" && NamedHash(reply) != Lower(w.call.paymentHash) then SpeaksOfAnother
      else if Refuses(reply) then SaysFailed
      else if NamedHash(reply) == "" then AcceptsUnnamed
      else AcceptsThis
    case _ => SaysNothing
  }

  function HashNamed(answer: Answer): string {
    match answer
    case LookupAnswers(found) => found.hash
    case PayAnswers(reply) => NamedHash(reply)
    case _ => ""
  }

  // ------------------------------------------------------------ one worker

  const CLAIM_LOST := Failure(409, "idempotency_claim_lost", "This worker no longer owns the idempotency claim")

  /** An ApiError leaves the route: the handler consults the store only for 4xx errors. */
  function Raise(f: Failure): Pc {
    if 400 <= f.statusCode < 500 then Raising(f) else Finished(Failed(f))
  }

  function PaymentBody(result: Json): Json {
    Obj([Field("success", Bool(true)), Field("payment", result)])
  }

  function InvoiceBody(result: Json): Json {
    Obj([Field("success", Bool(true)), Field("invoice", result)])
  }

  function OpAt(w: Worker, drawn: string): Option<Op> {
    var key, fp := w.call.key, w.call.fingerprint;
    var token := if w.token.Some? then w.token.value else "";
    match w.pc
    case Claiming =>
      if PaymentRoute(fp) then Some(ClaimOp(key, fp, Some(w.call.paymentHash), w.call.network, drawn))
      else Some(ClaimOp(key, fp, None, "", drawn))
    case Submitting => Some(MarkSubmittedOp(key, fp, token, w.call.paymentHash))
    case SavingSuccess(c, body) => Some(SaveOp(key, fp, token, body, c))
    case MarkingFailed(code, text, f) => Some(MarkFailedOp(key, fp, token, code, text, f.statusCode))
    case MarkingUnknown(error, _) => Some(MarkUnknownOp(key, fp, token, w.call.paymentHash, error))
    case Raising(_) => Some(StateOp(key))
    case FailingClaim(f) => Some(MarkFailedOp(key, fp, token, f.code, f.message, f.statusCode))
    case _ => None
  }

  function RefusalFailure(why: Refusal): Failure {
    match why
    case Conflict => Failure(409, "idempotency_conflict", "Idempotency-Key was reused with a different request")
    case InProgress => Failure(409, "idempotency_in_progress", "Request with this Idempotency-Key is still in progress")
    case ClaimLost => CLAIM_LOST
  }

  function AfterStore(w: Worker, reply: Reply): (w': Worker)
    ensures w'.call == w.call && (!w.pc.Claiming? ==> w'.token == w.token) && w'.paid == w.paid
  {
    match w.pc
    case Claiming =>
      (match reply
       case Claim(t, state, _) =>
         w.(token := Some(t),
            pc := if !PaymentRoute(w.call.fingerprint) then Creating
                  else if state in {Submitted, Unknown} then Reconciling else Submitting)
       case Replay(body, c) => w.(pc := Finished(Answered(c, body)))
       // no token is known to the request yet, so the error handler leaves the row alone
       case Refused(why) => w.(pc := Finished(Failed(RefusalFailure(why))))
       case _ => w)
    case Submitting =>
      if reply == Stored then w.(pc := Paying, submitted := true) else w.(pc := Raise(CLAIM_LOST))
    case SavingSuccess(c, body) => w.(pc := if reply == Stored then Finished(Answered(c, body)) else Raise(CLAIM_LOST))
    case MarkingFailed(_, _, f) => w.(pc := Raise(if reply == Stored then f else CLAIM_LOST))
    case MarkingUnknown(_, f) => w.(pc := Raise(if reply == Stored then f else CLAIM_LOST))
    case Raising(f) =>
      (match reply
       case Read(Some(row)) =>
         w.(pc := if row.state == Claimed && row.claimToken == w.token then FailingClaim(f) else Finished(Failed(f)))
       case _ => w.(pc := Finished(Failed(f))))
    case FailingClaim(f) =>
      w.(pc := Finished(Failed(if reply == Stored then f else Failure(500, "internal_error", "Internal server error"))))
    case _ => w
  }

  /** Can this answer come back at this point? A lookup answers about the hash it was asked for. */
  predicate Fits(w: Worker, answer: Answer) {
    match w.pc
    case Reconciling =>
      answer.LookupRaises? || (answer.LookupAnswers? && answer.found.hash == Lower(w.call.paymentHash))
    case Paying => answer.Quiet?
    case AwaitingAnswer => answer.PayRaises? || answer.PayAnswers?
    case Creating => answer.InvoiceFails? || answer.InvoiceCreated?
    case _ => false
  }

  function AfterLookup(answer: Answer): Pc
    requires answer.LookupRaises? || answer.LookupAnswers?
  {
    if answer.LookupRaises? then
      MarkingUnknown(answer.error,
                     Failure(503, "payment_reconciliation_unavailable",
                             "Unable to reconcile the previous Lightning payment attempt"))
    else if PaymentState(FoundView(answer.found)) == SaysSucceeded then
      SavingSuccess(202, PaymentBody(FoundView(answer.found)))
    else if PaymentState(FoundView(answer.found)) == SaysFailed then
      MarkingFailed("payment_failed", "LND reports that the previous payment failed",
                    Failure(409, "payment_failed", "Lightning payment failed"))
    else
      MarkingUnknown("LND payment is still in flight or unknown",
                     PAYMENT_PENDING)
  }

  function AfterPay(w: Worker, answer: Answer): Pc
    requires answer.PayRaises? || answer.PayAnswers?
  {
    if answer.PayRaises? then TimedOut(answer.error)
    else
      match PayInvoice(answer.reply, w.call.feeLimit)
      case Err(error) => TimedOut(error)
      case Ok(result) => AfterPayment(w.call.paymentHash, result)
  }

  const PAYMENT_PENDING :=
    Failure(409, "payment_reconciliation_pending",
            "Previous payment is still in flight or unknown; no second payment was submitted")

  function TimedOut(error: string): Pc {
    MarkingUnknown(error, PAYMENT_UNKNOWN)
  }

  const PAYMENT_UNKNOWN :=
    Failure(504, "payment_timeout_unknown", "Payment result is unknown. Reconcile before retrying.")

  /** The route's reading of what `pay_invoice` returned. */
  function AfterPayment(paymentHash: string, result: Json): Pc
    requires result.Obj?
  {
    var returnedHash := Lower(TextOr(Get(result.fields, "payment_hash")));
    if returnedHash != "" && returnedHash != Lower(paymentHash) then
      MarkingUnknown("LND returned a different payment hash",
                     Failure(502, "payment_hash_mismatch",
                             "LND returned a payment hash different from the decoded invoice"))
    else if IsTruthy(Get(result.fields, "payment_error")) || PaymentState(result) == SaysFailed then
      MarkingFailed("payment_rejected", "LND rejected the payment",
                    Failure(409, "payment_rejected", "LND rejected the payment"))
    else if PaymentState(result) == SaysNothing then
      MarkingUnknown("LND returned an unknown payment state", PAYMENT_UNKNOWN)
    else SavingSuccess(202, PaymentBody(result))
  }

  function AfterRail(w: Worker, answer: Answer): (w': Worker)
    requires Fits(w, answer)
    ensures w'.call == w.call && w'.token == w.token && w'.submitted == w.submitted
  {
    match w.pc
    case Reconciling => w.(pc := AfterLookup(answer))
    case Paying => w.(pc := AwaitingAnswer, paid := true)  // the call has left
    case AwaitingAnswer => w.(pc := AfterPay(w, answer))
    case Creating =>
      w.(pc := match answer
               case InvoiceFails(f) => Raise(f)
               case InvoiceCreated(result) => SavingSuccess(201, InvoiceBody(result))
               case _ => w.pc)
  }

  // ------------------------------------------------------------ the system

  function StoreAct(lease: int, s: World, id: nat, op: Op, now: int): World
    requires id in s.workers
  {
    var (table', reply) := Exec(lease, s.table, op, now);
    World(table', s.workers[id := AfterStore(s.workers[id], reply)], Issue(s.issued, op), s.history)
  }

  function RailAct(s: World, id: nat, answer: Answer): World
    requires id in s.workers && Fits(s.workers[id], answer)
  {
    var w := s.workers[id];
    var report := Reported(id, w.call.key, HashNamed(answer), ReportOf(w, answer));
    s.(workers := s.workers[id := AfterRail(w, answer)],
       history := s.history + (if w.pc.Paying? then [PayCalled(id, w.call.key)]
                               else if w.pc.AwaitingAnswer? || w.pc.Reconciling? then [report] else []))
  }

  predicate Enabled(s: World, move: Move) {
    match move
    case Arrive(id, _) => id !in s.workers
    case Act(id, _, drawn, answer) =>
      && id in s.workers
      && (if OpAt(s.workers[id], drawn).Some?
          then s.workers[id].pc.Claiming? ==> drawn != "" && drawn !in s.issued
          else Fits(s.workers[id], answer))
    case Crash(id) => id in s.workers && !s.workers[id].pc.Finished?
  }

  function Step(lease: int, s: World, move: Move): World
    requires Enabled(s, move)
  {
    match move
    case Arrive(id, call) => s.(workers := s.workers[id := Worker(call, None, Claiming, false, false)])
    case Act(id, now, drawn, answer) =>
      (match OpAt(s.workers[id], drawn)
       case Some(op) => StoreAct(lease, s, id, op, now)
       case None => RailAct(s, id, answer))
    case Crash(id) => s.(workers := s.workers[id := s.workers[id].(pc := Crashed)])
  }

  ghost predicate IsRun(lease: int, run: seq<World>, moves: seq<Move>) {
    && |run| == |moves| + 1 && run[0] == Initial()
    && forall i :: 0 <= i < |moves| ==> Enabled(run[i], moves[i]) && run[i + 1] == Step(lease, run[i], moves[i])
  }

  /** Some run leads here. */
  ghost predicate Reachable(lease: int, s: World) {
    exists run, moves :: IsRun(lease, run, moves) && run[|run| - 1] == s
  }

  lemma InitialIsReachable(lease: int)
    ensures Reachable(lease, Initial())
  {
    assert IsRun(lease, [Initial()], []);
  }

  lemma StepIsReachable(lease: int, s: World, move: Move)
    requires Reachable(lease, s) && Enabled(s, move)
    ensures Reachable(lease, Step(lease, s, move))
  {
    var run, moves :| IsRun(lease, run, moves) && run[|run| - 1] == s;
    assert IsRun(lease, run + [Step(lease, s, move)], moves + [move]);
  }
}
