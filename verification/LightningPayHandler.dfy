/**
 The `pay_invoice` and `create_invoice` routes with the `api_error` handler behind them,
 as step sequences over the store and LND. Between any two steps every other request
 may run or crash (`Elsewhere`). The contracts say that each route is a worker of the
 transition system, from its claim to the answer it gives.
 */
module LightningPayHandler {
  import opened Prelude
  import opened Json
  import opened LightningStore
  import opened LightningCohesionStore
  import opened LightningPay
  import opened LightningPayProofs
  import opened LndClient
  import PaymentLookup

  /** What a route hands back: a stored success, or the ApiError it raised. */
  datatype Routed = Success(statusCode: int, body: Json) | Raised(failure: Failure)

  class PaymentService {
    const store: CohesionStore
    ghost var world: World

    ghost predicate Valid()
      reads this, store
    {
      store.Valid() && Reachable(store.lease, world) && Inv(world) && world.table == store.table
    }

    ghost predicate Here(me: nat, call: Call, token: string, pc: Pc)
      reads this
    {
      me in world.workers && world.workers[me].call == call && world.workers[me].token == Some(token)
      && world.workers[me].pc == pc
    }

    ghost predicate Ended(me: nat, outcome: Outcome)
      reads this
    {
      me in world.workers && world.workers[me].pc == Finished(outcome)
    }

    /** Where a route leaves its worker. */
    ghost predicate Left(me: nat, call: Call, token: string, routed: Routed)
      reads this
    {
      match routed
      case Success(statusCode, body) => Ended(me, Answered(statusCode, body))
      case Raised(failure) => Here(me, call, token, Raise(failure))
    }

    constructor (store: CohesionStore)
      requires store.table == map[]
      ensures this.store == store && Valid() && world == Initial()
    {
      this.store := store;
      world := Initial();
      InitialIsReachable(store.lease);
    }

    /** Anything the others can do. Callers know only what the contract says. */
    method Elsewhere(ghost me: nat)
      requires Valid() && me in world.workers
      modifies this`world, store
      ensures Valid() && me in world.workers && world.workers[me] == old(world.workers[me])
    {
    }

    ghost method Tick(move: Move)
      requires store.Valid() && Reachable(store.lease, world) && Inv(world) && Enabled(world, move)
      requires Step(store.lease, world, move).table == store.table
      modifies this`world
      ensures Valid() && world == Step(store.lease, old(world), move)
    {
      hide Inv, Reachable;
      StepKeepsInv(store.lease, world, move);
      StepIsReachable(store.lease, world, move);
      world := Step(store.lease, world, move);
    }

    // ---------------------------------------------------------- LND, an adversary

    method Clock() returns (now: int)
    {
      now := *;
    }

    /** `client.lookup_payment`, against a server that may answer anything at any request. */
    method AskLookup(paymentHash: string)
      returns (answer: Answer, ghost server: PaymentLookup.Server, ghost requests: nat)
      ensures answer.LookupRaises? || answer.LookupAnswers?
      ensures answer.LookupAnswers? ==>
        && PaymentLookup.Asks(server, Lower(paymentHash), requests)
        && PaymentLookup.Outcome(server, Lower(paymentHash), requests) == Ok(answer.found)
        && answer.found.hash == Lower(paymentHash)
    {
      hide PaymentLookup.Outcome, PaymentLookup.Hash32, Lower;
      var lnd: PaymentLookup.Server := *;
      server := lnd;
      var result, n := PaymentLookup.LookupPayment(lnd, paymentHash);
      requests := n;
      match result
      case Ok(found) =>
        PaymentLookup.NeverAnotherPayment(server, Lower(paymentHash), requests);
        answer := LookupAnswers(found);
      case Err(RequestFailed(error)) =>
        answer := LookupRaises(error);
      case Err(InvalidHash) =>
        answer := LookupRaises("payment_hash must be 32 bytes encoded as hex");
    }

    /** LND's reply to the payment call, or the exception the transport raised. */
    method AskPay(call: Call) returns (answer: Answer)
      ensures answer.PayRaises? || answer.PayAnswers?
    {
      var raises: bool, error: string, reply: Json := *, *, *;
      answer := if raises then PayRaises(error) else PayAnswers(reply);
    }

    method AskInvoice() returns (answer: Answer)
      ensures answer.InvoiceFails? || answer.InvoiceCreated?
    {
      var fails: bool, failure: Failure, result: Json := *, *, *;
      answer := if fails then InvoiceFails(failure) else InvoiceCreated(result);
    }

    // ---------------------------------------------------------- the routes

    method PayInvoice(ghost me: nat, call: Call, drawn: string) returns (outcome: Outcome)
      requires Valid() && PaymentRoute(call.fingerprint)
      requires me in world.workers && world.workers[me] == Worker(call, None, Claiming, false, false)
      requires drawn != "" && drawn !in world.issued
      modifies this`world, store
      ensures Valid() && Ended(me, outcome)
    {
      hide Inv, Reachable;
      var now := Clock();
      var claim := store.ClaimIdempotent(call.key, call.fingerprint, Some(call.paymentHash), call.network, drawn, now);
      Tick(Act(me, now, drawn, Quiet));
      if claim.Replay? {
        return Answered(claim.statusCode, claim.body);
      }
      if claim.Refused? {
        return Failed(RefusalFailure(claim.why));
      }
      var routed: Routed;
      if claim.state in {Submitted, Unknown} {
        routed := Reconcile(me, call, drawn);
      } else {
        routed := SubmitAndPay(me, call, drawn);
      }
      outcome := Respond(me, call, drawn, routed);
    }

    method CreateInvoice(ghost me: nat, call: Call, drawn: string) returns (outcome: Outcome)
      requires Valid() && !PaymentRoute(call.fingerprint)
      requires me in world.workers && world.workers[me] == Worker(call, None, Claiming, false, false)
      requires drawn != "" && drawn !in world.issued
      modifies this`world, store
      ensures Valid() && Ended(me, outcome)
    {
      hide Inv, Reachable;
      var now := Clock();
      var claim := store.ClaimIdempotent(call.key, call.fingerprint, None, "", drawn, now);
      Tick(Act(me, now, drawn, Quiet));
      if claim.Replay? {
        return Answered(claim.statusCode, claim.body);
      }
      if claim.Refused? {
        return Failed(RefusalFailure(claim.why));
      }
      var routed := Create(me, call, drawn);
      outcome := Respond(me, call, drawn, routed);
    }

    method Create(ghost me: nat, call: Call, token: string) returns (routed: Routed)
      requires Valid() && Here(me, call, token, Creating)
      modifies this`world, store
      ensures Valid() && Left(me, call, token, routed)
    {
      hide Inv, Reachable;
      Elsewhere(me);
      var invoice := AskInvoice();
      Tick(Act(me, 0, "", invoice));
      if invoice.InvoiceFails? {
        routed := Raised(invoice.failure);
      } else {
        routed := Idempotent(me, call, token, InvoiceBody(invoice.result), 201);
      }
    }

    /** An earlier attempt may have paid: ask, and never pay again. */
    method Reconcile(ghost me: nat, call: Call, token: string) returns (routed: Routed)
      requires Valid() && Here(me, call, token, Reconciling)
      modifies this`world, store
      ensures Valid() && Left(me, call, token, routed)
    {
      hide Inv, Reachable;
      Elsewhere(me);
      var lookup, _, _ := AskLookup(call.paymentHash);
      Tick(Act(me, 0, "", lookup));
      routed := ReadLookup(me, call, token, lookup);
    }

    method ReadLookup(ghost me: nat, call: Call, token: string, lookup: Answer) returns (routed: Routed)
      requires lookup.LookupRaises? || lookup.LookupAnswers?
      requires Valid() && Here(me, call, token, AfterLookup(lookup))
      modifies this`world, store
      ensures Valid() && Left(me, call, token, routed)
    {
      hide Inv, Reachable;
      if lookup.LookupRaises? {
        routed := RecordUnknown(me, call, token, lookup.error,
                                Failure(503, "payment_reconciliation_unavailable",
                                        "Unable to reconcile the previous Lightning payment attempt"));
        return;
      }
      var reconciled := FoundView(lookup.found);
      var state := PaymentState(reconciled);
      if state == SaysSucceeded {
        routed := Idempotent(me, call, token, PaymentBody(reconciled), 202);
      } else if state == SaysFailed {
        routed := RecordFailed(me, call, token, "payment_failed", "LND reports that the previous payment failed",
                               Failure(409, "payment_failed", "Lightning payment failed"));
      } else {
        routed := RecordUnknown(me, call, token, "LND payment is still in flight or unknown",
                                PAYMENT_PENDING);
      }
    }

    method SubmitAndPay(ghost me: nat, call: Call, token: string) returns (routed: Routed)
      requires Valid() && Here(me, call, token, Submitting)
      modifies this`world, store
      ensures Valid() && Left(me, call, token, routed)
    {
      hide Inv, Reachable;
      Elsewhere(me);
      var now := Clock();
      var marked := store.MarkSubmitted(call.key, call.fingerprint, token, call.paymentHash, now);
      Tick(Act(me, now, "", Quiet));
      if marked != Stored {
        return Raised(CLAIM_LOST);
      }
      routed := Pay(me, call, token);
    }

    /** The one call that can move money, made after the row says SUBMITTED. */
    method Pay(ghost me: nat, call: Call, token: string) returns (routed: Routed)
      requires Valid() && Here(me, call, token, Paying)
      modifies this`world, store
      ensures Valid() && Left(me, call, token, routed)
    {
      hide Inv, Reachable;
      Elsewhere(me);
      Tick(Act(me, 0, "", Quiet));
      Elsewhere(me);
      var answer := AskPay(call);
      Tick(Act(me, 0, "", answer));
      routed := Interpret(me, call, token, answer);
    }

    method Interpret(ghost me: nat, call: Call, token: string, answer: Answer) returns (routed: Routed)
      requires answer.PayRaises? || answer.PayAnswers?
      requires Valid() && me in world.workers && Here(me, call, token, AfterPay(world.workers[me], answer))
      modifies this`world, store
      ensures Valid() && Left(me, call, token, routed)
    {
      hide Inv, Reachable;
      if answer.PayRaises? {
        routed := RecordUnknown(me, call, token, answer.error, PAYMENT_UNKNOWN);
        return;
      }
      var returned := LndClient.PayInvoice(answer.reply, call.feeLimit);
      if returned.Err? {
        routed := RecordUnknown(me, call, token, returned.error, PAYMENT_UNKNOWN);
        return;
      }
      routed := ReadPayment(me, call, token, returned.value);
    }

    method ReadPayment(ghost me: nat, call: Call, token: string, result: Json) returns (routed: Routed)
      requires result.Obj?
      requires Valid() && Here(me, call, token, AfterPayment(call.paymentHash, result))
      modifies this`world, store
      ensures Valid() && Left(me, call, token, routed)
    {
      hide Inv, Reachable;
      var returnedHash := Lower(TextOr(Get(result.fields, "payment_hash")));
      if returnedHash != "" && returnedHash != Lower(call.paymentHash) {
        routed := RecordUnknown(me, call, token, "LND returned a different payment hash",
                                Failure(502, "payment_hash_mismatch",
                                        "LND returned a payment hash different from the decoded invoice"));
        return;
      }
      var state := PaymentState(result);
      if IsTruthy(Get(result.fields, "payment_error")) || state == SaysFailed {
        routed := RecordFailed(me, call, token, "payment_rejected", "LND rejected the payment",
                               Failure(409, "payment_rejected", "LND rejected the payment"));
      } else if state == SaysNothing {
        routed := RecordUnknown(me, call, token, "LND returned an unknown payment state", PAYMENT_UNKNOWN);
      } else {
        routed := Idempotent(me, call, token, PaymentBody(result), 202);
      }
    }

    method RecordFailed(ghost me: nat, call: Call, token: string, code: string, text: string, failure: Failure)
      returns (routed: Routed)
      requires Valid() && Here(me, call, token, MarkingFailed(code, text, failure))
      modifies this`world, store
      ensures Valid() && Left(me, call, token, routed)
    {
      hide Inv, Reachable;
      Elsewhere(me);
      var now := Clock();
      var marked := store.MarkFailed(call.key, call.fingerprint, token, code, text, failure.statusCode, now);
      Tick(Act(me, now, "", Quiet));
      routed := Raised(if marked == Stored then failure else CLAIM_LOST);
    }

    method RecordUnknown(ghost me: nat, call: Call, token: string, error: string, failure: Failure)
      returns (routed: Routed)
      requires Valid() && Here(me, call, token, MarkingUnknown(error, failure))
      modifies this`world, store
      ensures Valid() && Left(me, call, token, routed)
    {
      hide Inv, Reachable;
      Elsewhere(me);
      var now := Clock();
      var marked := store.MarkUnknown(call.key, call.fingerprint, token, call.paymentHash, error, now);
      Tick(Act(me, now, "", Quiet));
      routed := Raised(if marked == Stored then failure else CLAIM_LOST);
    }

    /** `_idempotent`: the success is stored before it is given. */
    method Idempotent(ghost me: nat, call: Call, token: string, body: Json, statusCode: int) returns (routed: Routed)
      requires Valid() && Here(me, call, token, SavingSuccess(statusCode, body))
      modifies this`world, store
      ensures Valid() && Left(me, call, token, routed)
    {
      hide Inv, Reachable;
      Elsewhere(me);
      var now := Clock();
      var stored := store.SaveIdempotent(call.key, call.fingerprint, token, body, statusCode, now);
      Tick(Act(me, now, "", Quiet));
      routed := if stored == Stored then Success(statusCode, body) else Raised(CLAIM_LOST);
    }

    method Respond(ghost me: nat, call: Call, token: string, routed: Routed) returns (outcome: Outcome)
      requires Valid() && Left(me, call, token, routed)
      modifies this`world, store
      ensures Valid() && Ended(me, outcome)
    {
      hide Inv, Reachable;
      if routed.Success? {
        return Answered(routed.statusCode, routed.body);
      }
      outcome := ApiError(me, call, token, routed.failure);
    }

    /** `api_error`: a client error fails the claim, but only a claim that is still this request's and still CLAIMED. */
    method ApiError(ghost me: nat, call: Call, token: string, failure: Failure) returns (outcome: Outcome)
      requires Valid() && Here(me, call, token, Raise(failure))
      modifies this`world, store
      ensures Valid() && Ended(me, outcome)
    {
      hide Inv, Reachable;
      if failure.statusCode < 400 || failure.statusCode >= 500 {
        return Failed(failure);
      }
      Elsewhere(me);
      var row := store.State(call.key);
      Tick(Act(me, 0, "", Quiet));
      if row.None? || row.value.state != Claimed || row.value.claimToken != Some(token) {
        return Failed(failure);
      }
      outcome := FailClaim(me, call, token, failure);
    }

    method FailClaim(ghost me: nat, call: Call, token: string, failure: Failure) returns (outcome: Outcome)
      requires Valid() && Here(me, call, token, FailingClaim(failure))
      modifies this`world, store
      ensures Valid() && Ended(me, outcome)
    {
      hide Inv, Reachable;
      Elsewhere(me);
      var now := Clock();
      var marked := store.MarkFailed(call.key, call.fingerprint, token, failure.code, failure.message,
                                     failure.statusCode, now);
      Tick(Act(me, now, "", Quiet));
      outcome := Failed(if marked == Stored then failure else Failure(500, "internal_error", "Internal server error"));
    }
  }
}
