/**
 How long a lease of the Lightning store lasts, by the clock readings of the calls of a run,
 which need not ascend; and which calls of an owner are accepted.
 */
module LightningStoreClocks {
  import opened Prelude
  import opened Json
  import opened LightningStore
  import opened LightningStoreProofs
  import StripKeys

  /** The call draws this token and is given the claim on the key. */
  predicate Grants(lease: int, table: Table, op: Op, now: int, key: string, token: string) {
    op.ClaimOp? && op.key == key && op.drawn == token && Exec(lease, table, op, now).1.Claim?
  }

  /** The claim is given, or a call of its owner that sets the lease anew is accepted. */
  predicate Renews(lease: int, table: Table, op: Op, now: int, key: string, token: string) {
    match op
    case ClaimOp(_, _, _, _, _) => Grants(lease, table, op, now, key, token)
    case MarkSubmittedOp(k, _, t, _) => k == key && t == token && Exec(lease, table, op, now).1 == Stored
    case MarkUnknownOp(k, _, t, _, _) => k == key && t == token && Exec(lease, table, op, now).1 == Stored
    case HeartbeatOp(k, _, t) => k == key && t == token && Exec(lease, table, op, now).1 == Beat(true)
    case _ => false
  }

  lemma GrantSets(lease: int, table: Table, op: Op, now: int, key: string, token: string)
    requires Grants(lease, table, op, now, key, token)
    ensures var table' := Exec(lease, table, op, now).0;
      && Holds(table', key, token) && table'[key].leaseExpiresAt == Some(now + lease)
      && table'[key].fingerprint == op.fingerprint
  {
  }

  lemma HeldStep(lease: int, table: Table, op: Op, now: int, key: string, token: string)
    requires Holds(Exec(lease, table, op, now).0, key, token) && !(op.ClaimOp? && op.drawn == token)
    ensures Holds(table, key, token)
    ensures var row, row' := table[key], Exec(lease, table, op, now).0[key];
      && row'.fingerprint == row.fingerprint
      && row'.leaseExpiresAt ==
           if Renews(lease, table, op, now, key, token) then Some(now + lease) else row.leaseExpiresAt
  {
  }

  ghost predicate NoRenewal(
      lease: int, tables: seq<Table>, ops: seq<Op>, clock: seq<int>, h: nat, j: nat, key: string, token: string)
    requires |tables| == |ops| + 1 && |clock| == |ops| && j <= |ops|
  {
    forall m :: h < m < j ==> !Renews(lease, tables[m], ops[m], clock[m], key, token)
  }

  lemma {:induction false} HeldSinceGrant(
      lease: int, tables: seq<Table>, issued: seq<set<string>>, ops: seq<Op>, clock: seq<int>,
      g: nat, h: nat, j: nat, key: string, token: string)
    requires IsRun(lease, tables, issued, ops, clock) && g <= h < j < |tables|
    requires Grants(lease, tables[g], ops[g], clock[g], key, token) && Holds(tables[j], key, token)
    requires Renews(lease, tables[h], ops[h], clock[h], key, token)
    requires NoRenewal(lease, tables, ops, clock, h, j, key, token)
    ensures tables[j][key].fingerprint == ops[g].fingerprint
    ensures tables[j][key].leaseExpiresAt == Some(clock[h] + lease)
    decreases j
  {
    hide Exec, Renews;
    HeldBefore(lease, tables, issued, ops, clock, g, j, key, token);
    assert tables[j - 1 + 1] == Exec(lease, tables[j - 1], ops[j - 1], clock[j - 1]).0;
    if g < j - 1 {
      TokenIsOld(lease, tables, issued, ops, clock, g, j - 1, key, token);
      HeldStep(lease, tables[j - 1], ops[j - 1], clock[j - 1], key, token);
      if h < j - 1 {
        HeldSinceGrant(lease, tables, issued, ops, clock, g, h, j - 1, key, token);
      }
    } else {
      GrantSets(lease, tables[g], ops[g], clock[g], key, token);
    }
  }

  /** The request of a row, as long as the token it was granted to holds it. */
  lemma {:induction false} HeldBefore(
      lease: int, tables: seq<Table>, issued: seq<set<string>>, ops: seq<Op>, clock: seq<int>,
      g: nat, j: nat, key: string, token: string)
    requires IsRun(lease, tables, issued, ops, clock) && g < j < |tables|
    requires Grants(lease, tables[g], ops[g], clock[g], key, token) && Holds(tables[j], key, token)
    ensures tables[j][key].fingerprint == ops[g].fingerprint
    decreases j
  {
    hide Exec, Renews;
    assert tables[j - 1 + 1] == Exec(lease, tables[j - 1], ops[j - 1], clock[j - 1]).0;
    if g < j - 1 {
      TokenIsOld(lease, tables, issued, ops, clock, g, j - 1, key, token);
      HeldStep(lease, tables[j - 1], ops[j - 1], clock[j - 1], key, token);
      HeldBefore(lease, tables, issued, ops, clock, g, j - 1, key, token);
    } else {
      GrantSets(lease, tables[g], ops[g], clock[g], key, token);
    }
  }

  /** A token is drawn once. */
  lemma TokenIsOld(
      lease: int, tables: seq<Table>, issued: seq<set<string>>, ops: seq<Op>, clock: seq<int>,
      g: nat, j: nat, key: string, token: string)
    requires IsRun(lease, tables, issued, ops, clock) && g < j < |ops|
    requires Grants(lease, tables[g], ops[g], clock[g], key, token)
    ensures !(ops[j].ClaimOp? && ops[j].drawn == token)
  {
    hide Exec;
    GrantSets(lease, tables[g], ops[g], clock[g], key, token);
    assert tables[g + 1] == Exec(lease, tables[g], ops[g], clock[g]).0;
    HeldIsIssued(lease, tables, issued, ops, clock, g + 1, j, key, token);
  }

  /**
   What a claim meets while another holds the row, exactly, by the clock: another request is
   refused; the same request is refused before `t + lease`, with `t` the reading of the owner's last
   accepted renewal, and takes the row over from then on.
   */
  lemma ClaimByTheClock(
      lease: int, tables: seq<Table>, issued: seq<set<string>>, ops: seq<Op>, clock: seq<int>,
      g: nat, h: nat, j: nat, key: string, token: string, fp: Fingerprint, hash: Option<string>, network: string,
      drawn: string, now: int)
    requires IsRun(lease, tables, issued, ops, clock) && g <= h < j < |tables|
    requires Grants(lease, tables[g], ops[g], clock[g], key, token) && Holds(tables[j], key, token)
    requires Renews(lease, tables[h], ops[h], clock[h], key, token)
    requires NoRenewal(lease, tables, ops, clock, h, j, key, token)
    ensures var (table', reply) := ClaimIdempotent(lease, tables[j], key, fp, hash, network, drawn, now);
      if fp != ops[g].fingerprint then reply == Refused(Conflict) && table' == tables[j]
      else if now < clock[h] + lease then reply == Refused(InProgress) && table' == tables[j]
      else reply.Claim? && reply.state == tables[j][key].state && Holds(table', key, drawn)
  {
    hide Exec, Renews;
    HeldSinceGrant(lease, tables, issued, ops, clock, g, h, j, key, token);
    RunKeeps(lease, tables, issued, ops, clock, j);
    assert RowOk(tables[j][key]);
  }

  lemma {:induction false} LastRenewal(
      lease: int, tables: seq<Table>, ops: seq<Op>, clock: seq<int>, i: nat, j: nat, key: string, token: string)
    returns (h: nat)
    requires |tables| == |ops| + 1 && |clock| == |ops| && i < j <= |ops|
    requires Renews(lease, tables[i], ops[i], clock[i], key, token)
    ensures i <= h < j && Renews(lease, tables[h], ops[h], clock[h], key, token)
    ensures NoRenewal(lease, tables, ops, clock, h, j, key, token)
    decreases j
  {
    hide Renews;
    if i == j - 1 || Renews(lease, tables[j - 1], ops[j - 1], clock[j - 1], key, token) {
      h := j - 1;
    } else {
      h := LastRenewal(lease, tables, ops, clock, i, j - 1, key, token);
    }
  }

  /**
   A lease keeps others out: granted and, at reading `t`, renewed by the grant itself or by an
   accepted heartbeat or mark, a row still held under its token refuses every claim of another
   caller that reads less than `t + lease`, as long as no call in between has read less than `t`.
   */
  lemma LeaseKeepsOthersOut(
      lease: int, tables: seq<Table>, issued: seq<set<string>>, ops: seq<Op>, clock: seq<int>,
      g: nat, i: nat, j: nat, key: string, token: string, fp: Fingerprint, hash: Option<string>, network: string,
      drawn: string, now: int)
    requires IsRun(lease, tables, issued, ops, clock) && g <= i < j < |tables|
    requires Grants(lease, tables[g], ops[g], clock[g], key, token) && Holds(tables[j], key, token)
    requires Renews(lease, tables[i], ops[i], clock[i], key, token) && forall m :: i < m < j ==> clock[m] >= clock[i]
    requires now < clock[i] + lease
    ensures ClaimIdempotent(lease, tables[j], key, fp, hash, network, drawn, now) ==
      (tables[j], Refused(if fp == ops[g].fingerprint then InProgress else Conflict))
  {
    hide Renews, Grants;
    var h := LastRenewal(lease, tables, ops, clock, i, j, key, token);
    ClaimByTheClock(lease, tables, issued, ops, clock, g, h, j, key, token, fp, hash, network, drawn, now);
  }

  // ------------------------------------------------------------ the payment hash of a row

  /** The payment hash this call writes to the key's row, if it writes one. */
  function Writes(lease: int, table: Table, op: Op, now: int, key: string): Option<string> {
    match op
    case ClaimOp(k, _, hash, _, _) =>
      if k == key && key !in table then Some(if hash.Some? then hash.value else "") else None
    case MarkSubmittedOp(k, _, _, hash) =>
      if k == key && Exec(lease, table, op, now).1 == Stored then Some(hash) else None
    case MarkUnknownOp(k, _, _, hash, _) =>
      if k == key && Exec(lease, table, op, now).1 == Stored then Some(hash) else None
    case _ => None
  }

  lemma HashStep(lease: int, table: Table, op: Op, now: int, key: string)
    requires key in Exec(lease, table, op, now).0
    ensures match Writes(lease, table, op, now, key)
      case Some(hash) => Exec(lease, table, op, now).0[key].paymentHash == hash
      case None => key in table && Exec(lease, table, op, now).0[key].paymentHash == table[key].paymentHash
  {
  }

  /**
   Whose payment a row stands for: its hash is the one given by the last call that wrote one, the
   claim that made the row, or an accepted mark_submitted or mark_unknown.
   */
  lemma {:induction false} HashIsTheLastWritten(
      lease: int, tables: seq<Table>, issued: seq<set<string>>, ops: seq<Op>, clock: seq<int>, h: nat, j: nat,
      key: string)
    requires IsRun(lease, tables, issued, ops, clock) && h < j < |tables| && key in tables[j]
    requires Writes(lease, tables[h], ops[h], clock[h], key).Some?
    requires forall m :: h < m < j ==> Writes(lease, tables[m], ops[m], clock[m], key).None?
    ensures tables[j][key].paymentHash == Writes(lease, tables[h], ops[h], clock[h], key).value
    decreases j
  {
    hide Exec, Writes;
    assert tables[j - 1 + 1] == Exec(lease, tables[j - 1], ops[j - 1], clock[j - 1]).0;
    HashStep(lease, tables[j - 1], ops[j - 1], clock[j - 1], key);
    if h < j - 1 { HashIsTheLastWritten(lease, tables, issued, ops, clock, h, j - 1, key); }
  }

  // ------------------------------------------------------------ answers

  /** The body of a stored failure: no success, and an error with code and message. */
  ghost predicate FailureAnswer(body: Json, code: string, message: string) {
    && body.Obj? && Get(body.fields, "success") == Bool(false) && Get(body.fields, "error").Obj?
    && Get(Get(body.fields, "error").fields, "code") == Str(code)
    && Get(Get(body.fields, "error").fields, "message") == Str(message)
    && forall k :: Has(body.fields, k) ==> k in {"success", "error"}
  }

  lemma FailureBodySays(code: string, message: string)
    ensures FailureAnswer(FailureBody(code, message), code, message)
  {
    var fields := FailureBody(code, message).fields;
    assert DistinctKeys(fields) by { assert |"success"| == 7 && |"error"| == 5; }
    GetFinds(fields, 0);
    GetFinds(fields, 1);
    var inner := fields[1].value.fields;
    assert DistinctKeys(inner) by { assert |"code"| == 4 && |"message"| == 7; }
    GetFinds(inner, 0);
    GetFinds(inner, 1);
  }

  /** A stored failure answers every later claim of its request, for ever, with its status, code and message. */
  lemma FailureIsForever(
      lease: int, tables: seq<Table>, issued: seq<set<string>>, ops: seq<Op>, clock: seq<int>, i: nat, j: nat,
      hash: Option<string>, network: string, drawn: string, now: int)
    requires IsRun(lease, tables, issued, ops, clock) && i < j < |tables|
    requires ops[i].MarkFailedOp? && Exec(lease, tables[i], ops[i], clock[i]).1 == Stored
    ensures var (table', reply) :=
        ClaimIdempotent(lease, tables[j], ops[i].key, ops[i].fingerprint, hash, network, drawn, now);
      && table' == tables[j] && reply.Replay? && reply.statusCode == ops[i].statusCode
      && FailureAnswer(reply.body, ops[i].code, ops[i].message)
  {
    hide FailureAnswer, ClaimIdempotent;
    assert tables[i + 1] == Exec(lease, tables[i], ops[i], clock[i]).0;
    ReplayIsForever(lease, tables, issued, ops, clock, i + 1, j, ops[i].key);
    FailureBodySays(ops[i].code, ops[i].message);
  }

  /** The letters of a name, in whatever case. */
  predicate SpelledLike(key: string, name: string) {
    |key| == |name| && forall i :: 0 <= i < |key| ==>
      key[i] == name[i] || ('A' <= key[i] <= 'Z' && key[i] as int + 32 == name[i] as int)
  }

  /** No replay shows a payment preimage or a payment route, at any depth and in any case of letters. */
  lemma ReplayHidesSecrets(
      lease: int, tables: seq<Table>, issued: seq<set<string>>, ops: seq<Op>, clock: seq<int>, i: nat, j: nat,
      hash: Option<string>, network: string, drawn: string, now: int, path: seq<StripKeys.Hop>, h: nat)
    requires IsRun(lease, tables, issued, ops, clock) && i < j < |tables|
    requires ops[i].SaveOp? && Exec(lease, tables[i], ops[i], clock[i]).1 == Stored
    requires h < |path| && path[h].Key?
    requires SpelledLike(path[h].key, "payment_preimage") || SpelledLike(path[h].key, "payment_route")
    ensures var reply := ClaimIdempotent(lease, tables[j], ops[i].key, ops[i].fingerprint, hash, network, drawn, now).1;
      reply.Replay? && StripKeys.At(reply.body, path) == None
  {
    assert Lower(path[h].key) == "payment_preimage" || Lower(path[h].key) == "payment_route";
    assert StripKeys.Forbidden(path[h].key, RESPONSE_SENSITIVE_KEYS);
    ReplayedBodyIsStripped(lease, tables, issued, ops, clock, i, j, ops[i].fingerprint, hash, network, drawn, now,
                           path);
  }

  // ------------------------------------------------------------ acceptance

  /** What a call asks of the row beyond the token that holds it. */
  predicate Accepts(table: Table, op: Op, key: string) {
    key in table && var row := table[key];
    match op
    case SaveOp(_, fp, _, _, _) => row.fingerprint == fp
    case MarkSubmittedOp(_, fp, _, _) => row.fingerprint == fp && row.state == Claimed
    case MarkFailedOp(_, fp, _, _, _, _) => row.fingerprint == fp
    case MarkUnknownOp(_, fp, _, _, _) => row.fingerprint == fp && row.state != Claimed
    case HeartbeatOp(_, fp, _) => row.fingerprint == fp
    case _ => true
  }

  /** A call under a token is accepted if and only if the token holds the row and the row is as asked. */
  lemma OwnersAreAccepted(lease: int, table: Table, op: Op, now: int, key: string, token: string)
    requires TableOk(table) && ActsFor(op, key, token)
    ensures !ReportsLost(Exec(lease, table, op, now).1) <==> Holds(table, key, token) && Accepts(table, op, key)
  {
    if key in table { assert RowOk(table[key]); }
  }
}
