/**
 What the payment route makes of LND's replies, stated on the fields of the reply to a payment call
 and on the first listing a lookup finds.
 */
module LndReplies {
  import opened Prelude
  import opened Json
  import opened LndClient
  import opened LndWords
  import opened LndHashes
  import opened LightningPay
  import opened LightningPayProofs
  import PaymentLookup

  predicate LowerCase(text: string) {
    forall i :: 0 <= i < |text| ==> !('A' <= text[i] <= 'Z')
  }

  lemma LowerIsLowerCase(text: string)
    ensures LowerCase(Lower(text)) && SameUpToCase(Lower(text), text)
  {
  }

  /** The hash read off a reply is the one its fields name, letter by letter, in lower case; or none. */
  lemma HashIsTheOneNamed(fields: seq<Field>, hash: string)
    ensures Names(fields, hash) ==>
      hash != "" && SameUpToCase(NamedHash(Obj(fields)), hash) && LowerCase(NamedHash(Obj(fields)))
    ensures NamesNone(fields) ==> NamedHash(Obj(fields)) == ""
  {
    hide NamedHash, Lower;
    HashIsRead(fields, hash);
    LowerIsLowerCase(hash);
  }

  // ------------------------------------------------------------ a payment call

  const MISMATCH :=
    MarkingUnknown("LND returned a different payment hash",
                   Failure(502, "payment_hash_mismatch",
                           "LND returned a payment hash different from the decoded invoice"))

  /** `body["payment"]` */
  function PaymentIn(body: Json): seq<Field> {
    if body.Obj? && Get(body.fields, "payment").Obj? then Get(body.fields, "payment").fields else []
  }

  /** The answer to an accepted payment call: LND's hash, no error of LND's left out, and the fee limit asked for. */
  predicate PaymentAnswer(body: Json, hash: Json, error: Json, feeLimit: int) {
    && body.Obj? && Get(body.fields, "success") == Bool(true)
    && Get(PaymentIn(body), "payment_hash") == hash && Get(PaymentIn(body), "payment_error") == error
    && Get(PaymentIn(body), "status") == Str("submitted") && Get(PaymentIn(body), "fee_limit_sats") == Int(feeLimit)
  }

  lemma AllFound(fields: seq<Field>)
    requires DistinctKeys(fields)
    ensures forall i :: 0 <= i < |fields| ==> Get(fields, fields[i].key) == fields[i].value
  {
    forall i | 0 <= i < |fields|
      ensures Get(fields, fields[i].key) == fields[i].value
    {
      GetFinds(fields, i);
    }
  }

  lemma BodyHolds(payment: seq<Field>)
    ensures var body := PaymentBody(Obj(payment));
      body.Obj? && Get(body.fields, "success") == Bool(true) && PaymentIn(body) == payment
  {
    var fields := PaymentBody(Obj(payment)).fields;
    assert DistinctKeys(fields) by { assert "success"[0] != "payment"[0]; }
    AllFound(fields);
    assert fields[0].key == "success" && fields[1].key == "payment";
  }

  lemma ClientHolds(fields: seq<Field>, feeLimit: int)
    requires Empty(Get(fields, "payment_error"))
    ensures var result := LndClient.PayInvoice(Obj(fields), feeLimit);
      && result.Ok? && result.value.Obj?
      && PaymentAnswer(PaymentBody(result.value), ReplyHash(fields), Get(fields, "payment_error"), feeLimit)
  {
    hide ReplyHash;
    EmptyIsNotTruthy(Get(fields, "payment_error"));
    var payment := LndClient.PayInvoice(Obj(fields), feeLimit).value.fields;
    BodyHolds(payment);
    assert DistinctKeys(payment) by {
      assert |"payment_hash"| == 12 && |"payment_error"| == 13 && |"status"| == 6 && |"fee_limit_sats"| == 14;
    }
    AllFound(payment);
    assert payment[0].key == "payment_hash" && payment[1].key == "payment_error";
    assert payment[2].key == "status" && payment[3].key == "fee_limit_sats";
  }

  lemma HashIsKept(fields: seq<Field>, hash: string)
    ensures Names(fields, hash) ==> ReplyHash(fields) == Str(hash)
    ensures NamesNone(fields) ==> ReplyHash(fields) == Null
  {
    EmptyIsNotTruthy(Get(fields, "payment_hash"));
    EmptyIsNotTruthy(Get(fields, "payment_hash_bytes"));
    if Names(fields, hash) && Empty(Get(fields, "payment_hash")) {
      BytesAreKept(fields, hash);
    }
  }

  lemma BytesAreKept(fields: seq<Field>, hash: string)
    requires Names(fields, hash) && Empty(Get(fields, "payment_hash"))
    ensures ReplyHash(fields) == Str(hash)
  {
    hide Base64Of, HexOf, Base64Hex;
    var b: seq<Byte> :| b != [] && Get(fields, "payment_hash_bytes") == Str(Base64Of(b)) && hash == HexOf(b);
    Base64ReadsBack(b);
    Lengths(b);
    EmptyIsNotTruthy(Get(fields, "payment_hash"));
  }

  /**
   What a payment call leads to, exactly, by the fields of LND's reply. The hash agrees if none is
   named or the one named is this payment's up to case. If it does not agree the row becomes UNKNOWN,
   whatever else the reply says; if it agrees and the reply names an error the row fails; if it
   agrees and there is no error the row succeeds, with LND's hash and the fee limit in the answer.
   */
  lemma PaySettlesExactly(w: Worker, fields: seq<Field>, hash: string)
    requires Names(fields, hash) || NamesNone(fields)
    ensures var pc := AfterPay(w, PayAnswers(Obj(fields)));
      var error := Get(fields, "payment_error");
      if !NamesNone(fields) && !SameUpToCase(hash, w.call.paymentHash) then pc == MISMATCH
      else if !Empty(error) then
        pc == MarkingFailed("payment_rejected", "LND rejected the payment",
                            Failure(409, "payment_rejected", "LND rejected the payment"))
      else
        && pc.SavingSuccess? && pc.statusCode == 202
        && PaymentAnswer(pc.body, if NamesNone(fields) then Null else Str(hash), error, w.call.feeLimit)
  {
    hide NamedHash, PaymentState, StateNamed, LndClient.PayInvoice, TextOr, ReplyHash, Lower, PaymentAnswer, IsTruthy;
    ClientFields(Obj(fields), w.call.feeLimit);
    HashIsRead(fields, hash);
    HashIsKept(fields, hash);
    LowerAgrees(hash, w.call.paymentHash);
    LowerEmpties(hash);
    EmptyIsNotTruthy(Get(fields, "payment_error"));
    if Empty(Get(fields, "payment_error")) { ClientHolds(fields, w.call.feeLimit); }
    if Names(fields, hash) { NamedOrNot(fields, hash); }
  }

  lemma LowerEmpties(text: string)
    ensures Lower(text) == "" <==> text == ""
  {
  }

  lemma NamedOrNot(fields: seq<Field>, hash: string)
    requires Names(fields, hash)
    ensures !NamesNone(fields)
  {
    if Empty(Get(fields, "payment_hash")) {
      var b: seq<Byte> :| b != [] && Get(fields, "payment_hash_bytes") == Str(Base64Of(b)) && hash == HexOf(b);
      Lengths(b);
    }
  }

  /** A reply that names another payment's hash never settles the row. */
  lemma AnotherHashNeverSettles(w: Worker, fields: seq<Field>, hash: string)
    requires Names(fields, hash) && !SameUpToCase(hash, w.call.paymentHash)
    ensures AfterPay(w, PayAnswers(Obj(fields))) == MISMATCH
  {
    NamedOrNot(fields, hash);
    PaySettlesExactly(w, fields, hash);
  }

  lemma {:induction false} Base64Length(bytes: seq<Byte>)
    ensures |Base64Of(bytes)| == (|bytes| + 2) / 3 * 4
    decreases |bytes|
  {
    hide Base64, First, Second, Third, Fourth;
    if |bytes| > 2 { Base64Length(bytes[3..]); }
  }

  /** A base64 hash under `payment_hash` is compared as it stands, so it never settles, not even its own row. */
  lemma BytesUnderTheNameNeverSettle(w: Worker, fields: seq<Field>, bytes: seq<Byte>)
    requires |bytes| == 32 && |w.call.paymentHash| == 64 && Get(fields, "payment_hash") == Str(Base64Of(bytes))
    ensures AfterPay(w, PayAnswers(Obj(fields))) == MISMATCH
  {
    hide AfterPay, Base64Of;
    Base64Length(bytes);
    AnotherHashNeverSettles(w, fields, Base64Of(bytes));
  }

  /** A hexadecimal hash under `payment_hash_bytes` is decoded as base64, so it never settles, not even its own row. */
  lemma HexUnderTheBytesNeverSettles(w: Worker, fields: seq<Field>, text: string)
    requires Hexadecimal(text) && |text| == 64 && |w.call.paymentHash| == 64
    requires Empty(Get(fields, "payment_hash")) && Get(fields, "payment_hash_bytes") == Str(text)
    ensures AfterPay(w, PayAnswers(Obj(fields))) == MISMATCH
  {
    hide Hexadecimal, Base64Hex, LndClient.PayInvoice, PaymentState, Lower, AfterPayment;
    HexIsReadAsBase64(text);
    EmptyIsNotTruthy(Get(fields, "payment_hash"));
    ClientFields(Obj(fields), w.call.feeLimit);
    LongerHash(Base64Hex(text).value, w.call.paymentHash);
    MismatchIsUnknown(w.call.paymentHash, LndClient.PayInvoice(Obj(fields), w.call.feeLimit).value);
  }

  lemma LongerHash(a: string, b: string)
    requires |a| > |b|
    ensures Lower(a) != Lower(b) && Lower(a) != ""
  {
  }

  lemma MismatchIsUnknown(paymentHash: string, result: Json)
    requires result.Obj?
    requires var named := Lower(TextOr(Get(result.fields, "payment_hash"))); named != "" && named != Lower(paymentHash)
    ensures AfterPayment(paymentHash, result) == MISMATCH
  {
  }

  // ------------------------------------------------------------ a lookup

  /** Among all that the search fetched, the first listing under this hash, if there is one. */
  function FirstListing(server: PaymentLookup.Server, hash: string, n: nat): Option<PaymentLookup.Payment> {
    PaymentLookup.FirstMatch(hash, PaymentLookup.Fetched(server, n))
  }

  /** The answer to a reconciled payment: hash, status, value, fee and creation time as listed. */
  predicate ListingAnswer(body: Json, hash: string, p: PaymentLookup.Payment) {
    && body.Obj? && Get(body.fields, "success") == Bool(true)
    && Get(PaymentIn(body), "payment_hash") == Str(hash) && Get(PaymentIn(body), "status") == p.status
    && Get(PaymentIn(body), "value_sats") == Int(p.valueSats) && Get(PaymentIn(body), "fee_sats") == Int(p.feeSats)
    && Get(PaymentIn(body), "creation_time_ns") == p.creationTimeNs
  }

  lemma ViewHolds(hash: string, p: PaymentLookup.Payment)
    ensures ListingAnswer(PaymentBody(FoundView(PaymentLookup.View(hash, p))), hash, p)
  {
    var payment := FoundView(PaymentLookup.View(hash, p)).fields;
    BodyHolds(payment);
    assert DistinctKeys(payment) by {
      assert |"payment_hash"| == 12 && |"status"| == 6 && |"value_sats"| == 10 && |"fee_sats"| == 8;
      assert |"creation_time_ns"| == 16;
    }
    AllFound(payment);
    assert payment[0].key == "payment_hash" && payment[1].key == "status" && payment[2].key == "value_sats";
    assert payment[3].key == "fee_sats" && payment[4].key == "creation_time_ns";
  }

  /** What a reconciliation leads to when the first listing under the hash says what it says. */
  ghost predicate LookupSettles(pc: Pc, hash: string, first: Option<PaymentLookup.Payment>) {
    if first.Some? && StatusSays(first.value.status, {"SUCCEEDED", "SETTLED", "COMPLETED", "COMPLETE"}) then
      pc.SavingSuccess? && pc.statusCode == 202 && ListingAnswer(pc.body, hash, first.value)
    else if first.Some? && StatusSays(first.value.status, {"FAILED", "FAILURE", "CANCELED", "CANCELLED"}) then
      pc == MarkingFailed("payment_failed", "LND reports that the previous payment failed",
                          Failure(409, "payment_failed", "Lightning payment failed"))
    else
      pc == MarkingUnknown("LND payment is still in flight or unknown",
                           Failure(409, "payment_reconciliation_pending",
                                   "Previous payment is still in flight or unknown; no second payment was submitted"))
  }

  /**
   What a reconciliation leads to, exactly, whatever the server answers to however many requests: the
   search speaks of this request's own payment, and the row succeeds, fails or stays in doubt as the
   status of the first listing under that very hash spells one of LND's words or not.
   */
  lemma LookupSettlesExactly(w: Worker, server: PaymentLookup.Server, n: nat)
    requires w.pc.Reconciling? && PaymentLookup.Asks(server, Lower(w.call.paymentHash), n)
    requires PaymentLookup.Outcome(server, Lower(w.call.paymentHash), n).Ok?
    ensures var hash := Lower(w.call.paymentHash);
      var answer := LookupAnswers(PaymentLookup.Outcome(server, hash, n).value);
      && Fits(w, answer) && HashNamed(answer) == hash
      && LookupSettles(AfterLookup(answer), hash, FirstListing(server, hash, n))
  {
    hide PaymentState, StateNamed, FoundView, PaymentLookup.Fetched, PaymentLookup.FirstMatch, StatusSays,
         ListingAnswer, TextOr, PaymentBody, Lower;
    var hash := Lower(w.call.paymentHash);
    var first := FirstListing(server, hash, n);
    LookupReads(PaymentLookup.Outcome(server, hash, n).value);
    if first.Some? {
      StatusReads(first.value.status);
      ViewHolds(hash, first.value);
    }
  }
}
