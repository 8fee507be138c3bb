/**
 The paged search for a payment that reconciliation relies on. The server may give any
 answer to any request: an error, something that is no page, or any page with any offset.
 */
module PaymentLookup {
  import opened Prelude
  import opened Json

  /** A payment as listed; a missing hash is the empty text. */
  datatype Payment = Payment(hash: string, status: Json, valueSats: int, feeSats: int, creationTimeNs: Json)

  datatype Page = NotAList | Page(payments: seq<Payment>, lastIndexOffset: int)

  /** What one request brings: the n-th request, asked for a given offset. */
  type Server = (nat, int) -> Result<Page, string>

  datatype Found =
    | Listed(hash: string, status: Json, valueSats: int, feeSats: int, creationTimeNs: Json)
    | NotListed(hash: string)

  datatype Problem = InvalidHash | RequestFailed(error: string)

  const MAX_REQUESTS: nat := 20

  predicate HexDigit(c: char) {
    '0' <= c <= '9' || 'a' <= c <= 'f' || 'A' <= c <= 'F'
  }

  predicate Hash32(text: string) {
    |text| == 64 && forall i :: 0 <= i < |text| ==> HexDigit(text[i])
  }

  function View(hash: string, p: Payment): Found {
    Listed(hash, p.status, p.valueSats, p.feeSats, p.creationTimeNs)
  }

  // ------------------------------------------------------------ the flat search

  predicate FirstAt(hash: string, payments: seq<Payment>, i: int) {
    && 0 <= i < |payments| && Lower(payments[i].hash) == hash
    && forall j :: 0 <= j < i ==> Lower(payments[j].hash) != hash
  }

  /** The first payment in a list whose hash, in lower case, is the one looked for. */
  function FirstMatch(hash: string, payments: seq<Payment>): (r: Option<Payment>)
    ensures r.Some? <==> exists i :: 0 <= i < |payments| && Lower(payments[i].hash) == hash
    ensures r.Some? ==> exists i :: FirstAt(hash, payments, i) && r.value == payments[i]
  {
    if payments == [] then None
    else if Lower(payments[0].hash) == hash then
      Some(payments[0])
    else FirstMatch(hash, payments[1..])
  }

  function Concat(pages: seq<seq<Payment>>): seq<Payment> {
    if pages == [] then [] else Concat(pages[..|pages| - 1]) + pages[|pages| - 1]
  }

  /** The offset the n-th request asks for: where the page before it ended. */
  function OffsetOf(server: Server, n: nat): int {
    if n == 0 then 0
    else
      match server(n - 1, OffsetOf(server, n - 1))
      case Ok(Page(_, last)) => last
      case _ => 0
  }

  function Answer(server: Server, n: nat): Result<Page, string> {
    server(n, OffsetOf(server, n))
  }

  /** The payments of the n-th answer, if it has any. */
  function Payments(server: Server, n: nat): seq<Payment> {
    match Answer(server, n)
    case Ok(Page(payments, _)) => payments
    case _ => []
  }

  /** Nothing in this answer ends the search. */
  predicate GoesOn(server: Server, hash: string, n: nat) {
    match Answer(server, n)
    case Ok(Page(payments, last)) =>
      payments != [] && FirstMatch(hash, payments).None? && last > 0 && last != OffsetOf(server, n)
    case _ => false
  }

  /** Exactly `n` requests are made: each but the last one leads to another. */
  predicate Asks(server: Server, hash: string, n: nat) {
    && 1 <= n <= MAX_REQUESTS
    && (forall i :: 0 <= i < n - 1 ==> GoesOn(server, hash, i))
    && (n == MAX_REQUESTS || !GoesOn(server, hash, n - 1))
  }

  /** All that was fetched by the first `n` requests. */
  function Fetched(server: Server, n: nat): seq<Payment> {
    Concat(seq(n, i requires 0 <= i < n => Payments(server, i)))
  }

  function Outcome(server: Server, hash: string, n: nat): Result<Found, Problem>
    requires n > 0
  {
    match Answer(server, n - 1)
    case Err(e) => Err(RequestFailed(e))
    case Ok(_) =>
      match FirstMatch(hash, Fetched(server, n))
      case None => Ok(NotListed(hash))
      case Some(p) => Ok(View(hash, p))
  }

  // ------------------------------------------------------------ the loop

  lemma {:induction false} MatchInConcat(hash: string, a: seq<Payment>, b: seq<Payment>)
    ensures FirstMatch(hash, a + b) == if FirstMatch(hash, a).Some? then FirstMatch(hash, a) else FirstMatch(hash, b)
  {
    if a == [] {
      assert a + b == b;
    } else {
      assert (a + b)[1..] == a[1..] + b;
      MatchInConcat(hash, a[1..], b);
    }
  }

  lemma FetchedOneMore(server: Server, n: nat)
    ensures Fetched(server, n + 1) == Fetched(server, n) + Payments(server, n)
  {
    var pages := seq(n + 1, i requires 0 <= i < n + 1 => Payments(server, i));
    assert pages[..n] == seq(n, i requires 0 <= i < n => Payments(server, i));
  }

  lemma EndsHere(server: Server, hash: string, n: nat)
    requires n < MAX_REQUESTS && forall i :: 0 <= i < n ==> GoesOn(server, hash, i)
    requires FirstMatch(hash, Fetched(server, n)).None? && (!GoesOn(server, hash, n) || n + 1 == MAX_REQUESTS)
    ensures Asks(server, hash, n + 1)
    ensures Outcome(server, hash, n + 1) ==
      match Answer(server, n)
      case Err(e) => Err(RequestFailed(e))
      case Ok(_) =>
        match FirstMatch(hash, Payments(server, n))
        case None => Ok(NotListed(hash))
        case Some(p) => Ok(View(hash, p))
  {
    FetchedOneMore(server, n);
    MatchInConcat(hash, Fetched(server, n), Payments(server, n));
  }

  lemma GoesOnHere(server: Server, hash: string, n: nat)
    requires FirstMatch(hash, Fetched(server, n)).None? && GoesOn(server, hash, n)
    ensures FirstMatch(hash, Fetched(server, n + 1)).None?
    ensures Answer(server, n).Ok? && Answer(server, n).value.Page?
    ensures OffsetOf(server, n + 1) == Answer(server, n).value.lastIndexOffset
  {
    FetchedOneMore(server, n);
    MatchInConcat(hash, Fetched(server, n), Payments(server, n));
  }

  /**
   `lookup_payment`: at most twenty requests, and the flat first match over everything
   they fetched.
   */
  method LookupPayment(server: Server, text: string) returns (r: Result<Found, Problem>, requests: nat)
    ensures !Hash32(text) ==> r == Err(InvalidHash) && requests == 0
    ensures Hash32(text) ==> Asks(server, Lower(text), requests) && r == Outcome(server, Lower(text), requests)
  {
    if !Hash32(text) {
      return Err(InvalidHash), 0;
    }
    hide Fetched, Concat, Asks, Outcome, Lower;
    var hash := Lower(text);
    var indexOffset := 0;
    requests := 0;
    while requests < MAX_REQUESTS
      invariant requests <= MAX_REQUESTS && indexOffset == OffsetOf(server, requests)
      invariant forall i :: 0 <= i < requests ==> GoesOn(server, hash, i)
      invariant FirstMatch(hash, Fetched(server, requests)).None?
      invariant requests == MAX_REQUESTS ==>
        Asks(server, hash, requests) && Outcome(server, hash, requests) == Ok(NotListed(hash))
    {
      ghost var n := requests;
      var answer := server(requests, indexOffset);
      requests := requests + 1;
      if !GoesOn(server, hash, n) || requests == MAX_REQUESTS {
        EndsHere(server, hash, n);
      }
      if answer.Err? {
        return Err(RequestFailed(answer.error)), requests;
      }
      if answer.value.NotAList? || answer.value.payments == [] {
        break;
      }
      var payments := answer.value.payments;
      for i := 0 to |payments|
        invariant FirstMatch(hash, payments) == FirstMatch(hash, payments[i..])
      {
        if Lower(payments[i].hash) == hash {
          return Ok(View(hash, payments[i])), requests;
        }
        assert payments[i..][1..] == payments[i + 1..];
      }
      var nextOffset := answer.value.lastIndexOffset;
      if nextOffset <= 0 || nextOffset == indexOffset {
        break;
      }
      GoesOnHere(server, hash, n);
      indexOffset := nextOffset;
    }
    return Ok(NotListed(hash)), requests;
  }

  // ------------------------------------------------------------ what it promises

  lemma {:induction false} ConcatMembers(pages: seq<seq<Payment>>, p: Payment)
    ensures p in Concat(pages) <==> exists n :: 0 <= n < |pages| && p in pages[n]
  {
    if pages != [] {
      var init, last := pages[..|pages| - 1], pages[|pages| - 1];
      ConcatMembers(init, p);
      assert forall n :: 0 <= n < |init| ==> init[n] == pages[n];
      if p in last { assert p in pages[|pages| - 1]; }
    }
  }

  lemma NoMatchYet(server: Server, hash: string, n: nat, i: nat)
    requires Asks(server, hash, n) && i < n - 1
    ensures FirstMatch(hash, Payments(server, i)).None?
  {
    assert GoesOn(server, hash, i);
  }

  ghost predicate ListedIn(hash: string, payments: seq<Payment>, found: Found) {
    exists p :: p in payments && Lower(p.hash) == hash && View(hash, p) == found
  }

  /**
   A payment is reported only if some fetched page lists it under the hash asked for;
   "not listed" means no fetched page lists that hash.
   */
  lemma NeverAnotherPayment(server: Server, hash: string, n: nat)
    requires Asks(server, hash, n) && Outcome(server, hash, n).Ok?
    ensures match Outcome(server, hash, n).value
            case NotListed(h) =>
              h == hash && forall i :: 0 <= i < n ==> FirstMatch(hash, Payments(server, i)).None?
            case Listed(h, _, _, _, _) =>
              h == hash && ListedIn(hash, Payments(server, n - 1), Outcome(server, hash, n).value)
  {
    var pages := seq(n, i requires 0 <= i < n => Payments(server, i));
    match FirstMatch(hash, Fetched(server, n))
    case None =>
      forall i | 0 <= i < n
        ensures FirstMatch(hash, Payments(server, i)).None?
      {
        if FirstMatch(hash, Payments(server, i)).Some? {
          var p := FirstMatch(hash, Payments(server, i)).value;
          assert p in pages[i];
          ConcatMembers(pages, p);
        }
      }
    case Some(p) =>
      ConcatMembers(pages, p);
      var i: nat :| i < n && p in pages[i];
      if i < n - 1 { NoMatchYet(server, hash, n, i); }
  }

  /** An answer after which there is nothing left to ask for. */
  predicate Last(server: Server, n: nat) {
    match Answer(server, n)
    case Ok(Page(payments, last)) => payments == [] || last <= 0 || last == OffsetOf(server, n)
    case Ok(NotAList) => true
    case Err(_) => false
  }

  /**
   How far the search goes: each request but the first asks from where the page before ended, there
   are at most twenty, and "not listed" is said after fewer only if the last answer was no page, an
   empty one, or one that leads nowhere.
   */
  lemma SearchesOn(server: Server, hash: string, n: nat)
    requires Asks(server, hash, n)
    ensures n <= 20 && OffsetOf(server, 0) == 0
    ensures forall i :: 0 <= i < n - 1 ==>
      && Answer(server, i).Ok? && Answer(server, i).value.Page? && Answer(server, i).value.payments != []
      && OffsetOf(server, i + 1) == Answer(server, i).value.lastIndexOffset > 0
    ensures n < 20 && Outcome(server, hash, n) == Ok(NotListed(hash)) ==> Last(server, n - 1)
  {
    forall i | 0 <= i < n - 1
      ensures Answer(server, i).Ok? && Answer(server, i).value.Page? && Answer(server, i).value.payments != []
      ensures OffsetOf(server, i + 1) == Answer(server, i).value.lastIndexOffset > 0
    {
      assert GoesOn(server, hash, i);
    }
    if n < 20 && Outcome(server, hash, n) == Ok(NotListed(hash)) {
      NeverAnotherPayment(server, hash, n);
      assert FirstMatch(hash, Payments(server, n - 1)).None?;
    }
  }
}
