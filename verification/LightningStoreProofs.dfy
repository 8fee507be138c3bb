/** What every call of the Lightning store keeps, refuses and refines. */
module LightningStoreProofs {
  import opened Prelude
  import opened Json
  import opened LightningStore
  import StripKeys
  import FR = FencedRegister

  lemma ExecKeepsOk(lease: int, table: Table, op: Op, now: int)
    requires TableOk(table) && Sensible(op)
    ensures TableOk(Exec(lease, table, op, now).0)
  {
  }

  /** Rows never disappear, keep their request, and never return to CLAIMED once a payment was submitted. */
  ghost predicate Onward(row: Row, row': Row) {
    && row'.fingerprint == row.fingerprint
    && (row.state != Claimed ==> row'.state != Claimed)
    && (Settled(row.state) ==> row' == row)
  }

  lemma ExecGoesOnward(lease: int, table: Table, op: Op, now: int, key: string)
    requires TableOk(table) && key in table
    ensures key in Exec(lease, table, op, now).0 && Onward(table[key], Exec(lease, table, op, now).0[key])
  {
    assert RowOk(table[key]);
  }

  // ------------------------------------------------------------ fencing

  predicate ActsFor(op: Op, key: string, token: string) {
    match op
    case SaveOp(k, _, t, _, _) => k == key && t == token
    case MarkSubmittedOp(k, _, t, _) => k == key && t == token
    case MarkFailedOp(k, _, t, _, _, _) => k == key && t == token
    case MarkUnknownOp(k, _, t, _, _) => k == key && t == token
    case HeartbeatOp(k, _, t) => k == key && t == token
    case _ => false
  }

  predicate ReportsLost(reply: Reply) {
    reply == Refused(ClaimLost) || reply == Beat(false)
  }

  ghost predicate TokensKnown(table: Table, issued: set<string>) {
    forall k :: k in table && table[k].claimToken.Some? ==> table[k].claimToken.value in issued
  }

  function Issue(issued: set<string>, op: Op): set<string> {
    if op.ClaimOp? then issued + {op.drawn} else issued
  }

  lemma TokensStayKnown(lease: int, table: Table, issued: set<string>, op: Op, now: int)
    requires TokensKnown(table, issued)
    ensures TokensKnown(Exec(lease, table, op, now).0, Issue(issued, op))
  {
  }

  /** Any interleaving of calls at any clock readings; a drawn token has never been issued before. */
  ghost predicate IsRun(lease: int, tables: seq<Table>, issued: seq<set<string>>, ops: seq<Op>, clock: seq<int>) {
    && |tables| == |ops| + 1 && |issued| == |ops| + 1 && |clock| == |ops|
    && TableOk(tables[0]) && TokensKnown(tables[0], issued[0])
    && forall i :: 0 <= i < |ops| ==>
         && Sensible(ops[i]) && (ops[i].ClaimOp? ==> ops[i].drawn !in issued[i])
         && tables[i + 1] == Exec(lease, tables[i], ops[i], clock[i]).0
         && issued[i + 1] == Issue(issued[i], ops[i])
  }

  lemma {:induction false} RunKeeps(
      lease: int, tables: seq<Table>, issued: seq<set<string>>, ops: seq<Op>, clock: seq<int>, i: nat)
    requires IsRun(lease, tables, issued, ops, clock) && i < |tables|
    ensures TableOk(tables[i]) && TokensKnown(tables[i], issued[i])
  {
    if i > 0 {
      RunKeeps(lease, tables, issued, ops, clock, i - 1);
      assert tables[i - 1 + 1] == Exec(lease, tables[i - 1], ops[i - 1], clock[i - 1]).0;
      ExecKeepsOk(lease, tables[i - 1], ops[i - 1], clock[i - 1]);
      TokensStayKnown(lease, tables[i - 1], issued[i - 1], ops[i - 1], clock[i - 1]);
    }
  }

  predicate Holds(table: Table, key: string, token: string) {
    key in table && table[key].claimToken == Some(token)
  }

  /** A call under a token the row does not carry changes nothing and says so. */
  lemma LostClaimIsNoOp(lease: int, table: Table, op: Op, now: int, key: string, token: string)
    requires ActsFor(op, key, token) && !Holds(table, key, token)
    ensures Exec(lease, table, op, now).0 == table && ReportsLost(Exec(lease, table, op, now).1)
  {
  }

  lemma UnheldStays(lease: int, table: Table, issued: set<string>, op: Op, now: int, key: string, token: string)
    requires token in issued && !Holds(table, key, token) && (op.ClaimOp? ==> op.drawn !in issued)
    ensures token in Issue(issued, op) && !Holds(Exec(lease, table, op, now).0, key, token)
  {
  }

  /** What a run may rely on about a token that a row carries: it was issued, and stays issued. */
  lemma {:induction false} HeldIsIssued(
      lease: int, tables: seq<Table>, issued: seq<set<string>>, ops: seq<Op>, clock: seq<int>,
      i: nat, j: nat, key: string, token: string)
    requires IsRun(lease, tables, issued, ops, clock) && i <= j < |tables| && Holds(tables[i], key, token)
    ensures token in issued[j]
    decreases j
  {
    if i < j {
      HeldIsIssued(lease, tables, issued, ops, clock, i, j - 1, key, token);
      assert issued[j - 1 + 1] == Issue(issued[j - 1], ops[j - 1]);
    } else {
      RunKeeps(lease, tables, issued, ops, clock, i);
    }
  }

  lemma {:induction false} UnheldForever(
      lease: int, tables: seq<Table>, issued: seq<set<string>>, ops: seq<Op>, clock: seq<int>,
      i: nat, j: nat, key: string, token: string)
    requires IsRun(lease, tables, issued, ops, clock) && i <= j < |tables|
    requires token in issued[i] && !Holds(tables[i], key, token)
    ensures token in issued[j] && !Holds(tables[j], key, token)
    decreases j
  {
    if i < j {
      UnheldForever(lease, tables, issued, ops, clock, i, j - 1, key, token);
      UnheldStays(lease, tables[j - 1], issued[j - 1], ops[j - 1], clock[j - 1], key, token);
      assert tables[j - 1 + 1] == Exec(lease, tables[j - 1], ops[j - 1], clock[j - 1]).0;
    }
  }

  /**
   Fencing over runs: once a row has carried a token and carries it no more, because the token
   was replaced or the row settled, every later call under it changes nothing and is told so,
   whatever the clock does.
   */
  lemma FencedForever(
      lease: int, tables: seq<Table>, issued: seq<set<string>>, ops: seq<Op>, clock: seq<int>,
      i: nat, m: nat, j: nat, key: string, token: string)
    requires IsRun(lease, tables, issued, ops, clock) && i <= m <= j < |ops|
    requires Holds(tables[i], key, token) && !Holds(tables[m], key, token) && ActsFor(ops[j], key, token)
    ensures tables[j + 1] == tables[j] && ReportsLost(Exec(lease, tables[j], ops[j], clock[j]).1)
  {
    HeldIsIssued(lease, tables, issued, ops, clock, i, m, key, token);
    UnheldForever(lease, tables, issued, ops, clock, m, j, key, token);
    LostClaimIsNoOp(lease, tables[j], ops[j], clock[j], key, token);
  }

  // ------------------------------------------------------------ takeover and replay

  /** When the Python lease test and the SQL guard contradict each other: never on a row the store writes. */
  lemma TakeOverChecksAgree(row: Row, now: int)
    ensures (LeaseHeld(row, now) <==> !TakeOverGuard(row, row.fingerprint, now))
      <==> !(|| (row.claimToken == Some("") && row.leaseExpiresAt.Some? && row.leaseExpiresAt.value > now)
             || (Truthy(row.claimToken) && row.leaseExpiresAt.None? && now < 0))
  {
  }

  /** A matching claim of an unsettled row is refused exactly while its lease runs, and otherwise takes it over. */
  lemma TakeOverProgress(lease: int, table: Table, key: string, paymentHash: Option<string>, network: string,
                         drawn: string, now: int)
    requires TableOk(table) && key in table && !Settled(table[key].state)
    ensures table[key].leaseExpiresAt.Some?
    ensures var row := table[key];
      var (table', reply) := ClaimIdempotent(lease, table, key, row.fingerprint, paymentHash, network, drawn, now);
      if row.leaseExpiresAt.value > now then table' == table && reply == Refused(InProgress)
      else
        && reply.Claim? && reply.token == drawn && reply.state == row.state
        && (row.paymentHash != "" ==> reply.paymentHash == Some(row.paymentHash))
        && key in table' && table'[key].claimToken == Some(drawn) && table'[key].state == row.state
        && table'[key].paymentHash == row.paymentHash
        && (forall k :: k != key ==> (k in table' <==> k in table) && (k in table ==> table'[k] == table[k]))
  {
    assert RowOk(table[key]);
  }

  lemma {:induction false} RunGoesOnward(
      lease: int, tables: seq<Table>, issued: seq<set<string>>, ops: seq<Op>, clock: seq<int>,
      i: nat, j: nat, key: string)
    requires IsRun(lease, tables, issued, ops, clock) && i <= j < |tables| && key in tables[i]
    ensures key in tables[j] && Onward(tables[i][key], tables[j][key])
    decreases j - i
  {
    if i < j {
      RunKeeps(lease, tables, issued, ops, clock, i);
      assert tables[i + 1] == Exec(lease, tables[i], ops[i], clock[i]).0;
      ExecGoesOnward(lease, tables[i], ops[i], clock[i], key);
      RunGoesOnward(lease, tables, issued, ops, clock, i + 1, j, key);
    }
  }

  /**
   Replay for ever: after settlement every later claim of the same request gets the same
   status and body, and every other request on the key is refused.
   */
  lemma ReplayIsForever(
      lease: int, tables: seq<Table>, issued: seq<set<string>>, ops: seq<Op>, clock: seq<int>,
      i: nat, j: nat, key: string)
    requires IsRun(lease, tables, issued, ops, clock) && i <= j < |tables|
    requires key in tables[i] && Settled(tables[i][key].state)
    ensures forall fp, hash, network, drawn, now ::
      ClaimIdempotent(lease, tables[j], key, fp, hash, network, drawn, now) ==
        (tables[j], if fp == tables[i][key].fingerprint then Replay(tables[i][key].response, tables[i][key].statusCode)
                    else Refused(Conflict))
  {
    RunGoesOnward(lease, tables, issued, ops, clock, i, j, key);
  }

  /** The body replayed after a success is the first response, stripped, and nothing in it is sensitive. */
  lemma ReplayedBodyIsStripped(
      lease: int, tables: seq<Table>, issued: seq<set<string>>, ops: seq<Op>, clock: seq<int>, i: nat, j: nat,
      fp: Fingerprint, hash: Option<string>, network: string, drawn: string, now: int, path: seq<StripKeys.Hop>)
    requires IsRun(lease, tables, issued, ops, clock) && i < j < |tables|
    requires ops[i].SaveOp? && Exec(lease, tables[i], ops[i], clock[i]).1 == Stored && fp == ops[i].fingerprint
    ensures var reply := ClaimIdempotent(lease, tables[j], ops[i].key, fp, hash, network, drawn, now).1;
      && reply == Replay(StripKeys.Strip(ops[i].response, RESPONSE_SENSITIVE_KEYS), ops[i].statusCode)
      && (StripKeys.Crosses(path, RESPONSE_SENSITIVE_KEYS) ==> StripKeys.At(reply.body, path) == None)
  {
    assert tables[i + 1] == Exec(lease, tables[i], ops[i], clock[i]).0;
    ReplayIsForever(lease, tables, issued, ops, clock, i + 1, j, ops[i].key);
    StripKeys.StripKeepsTheRestInPlace(ops[i].response, RESPONSE_SENSITIVE_KEYS, path);
  }

  // ------------------------------------------------------------ refinement

  datatype Artefact = PaymentSubmitted
  datatype Outcome = Outcome(statusCode: int, body: Json)

  function CellOf(row: Row): FR.Cell<Fingerprint, Artefact, Outcome> {
    if Settled(row.state) then FR.Done(row.fingerprint, Outcome(row.statusCode, row.response))
    else
      FR.Owned(row.fingerprint, if row.claimToken.Some? then row.claimToken.value else "",
               if row.state == Claimed then None else Some(PaymentSubmitted))
  }

  function Abstract(table: Table, issued: set<string>): FR.Register<Fingerprint, Artefact, Outcome> {
    FR.Register(map k | k in table :: CellOf(table[k]), issued)
  }

  function ActOf(lease: int, table: Table, op: Op, now: int): FR.Act<Fingerprint, Artefact, Outcome> {
    var (table', reply) := Exec(lease, table, op, now);
    match op
    case ClaimOp(k, fp, _, _, t) =>
      if !reply.Claim? then FR.Idle else if k in table then FR.TakeOver(k, t) else FR.Begin(k, fp, t)
    case SaveOp(k, _, t, r, c) =>
      if reply.Stored? then FR.Settle(k, t, Outcome(c, table'[k].response)) else FR.Idle
    case MarkSubmittedOp(k, _, t, _) => if reply.Stored? then FR.Commit(k, t, PaymentSubmitted) else FR.Idle
    case MarkFailedOp(k, _, t, _, _, c) =>
      if reply.Stored? then FR.Settle(k, t, Outcome(c, table'[k].response)) else FR.Idle
    case _ => FR.Idle
  }

  /** Refinement: every call of every method is one act of the fenced register, and none ends a life. */
  lemma StoreRefinesRegister(lease: int, table: Table, issued: set<string>, op: Op, now: int)
    requires TableOk(table) && Sensible(op) && (op.ClaimOp? ==> op.drawn !in issued)
    ensures FR.Next(Abstract(table, issued), Abstract(Exec(lease, table, op, now).0, Issue(issued, op)),
                    ActOf(lease, table, op, now))
    ensures forall k :: !FR.EndsLife(ActOf(lease, table, op, now), k)
  {
    if op.ClaimOp? {
      ClaimRefines(lease, table, issued, op, now);
    } else {
      OwnerCallRefines(lease, table, issued, op, now);
    }
  }

  /** The cell of a key, read off the table. */
  lemma CellAt(table: Table, issued: set<string>, key: string)
    ensures FR.At(Abstract(table, issued), key) == if key in table then CellOf(table[key]) else FR.Absent
  {
  }

  lemma RefinesElsewhere(lease: int, table: Table, issued: set<string>, op: Op, now: int)
    ensures FR.OnlyAt(Abstract(table, issued), Abstract(Exec(lease, table, op, now).0, Issue(issued, op)), {op.key})
  {
  }

  lemma ClaimRefines(lease: int, table: Table, issued: set<string>, op: Op, now: int)
    requires TableOk(table) && op.ClaimOp? && op.drawn !in issued
    ensures FR.Next(Abstract(table, issued), Abstract(Exec(lease, table, op, now).0, Issue(issued, op)),
                    ActOf(lease, table, op, now))
  {
    hide FR.At, FR.OnlyAt;
    var table' := Exec(lease, table, op, now).0;
    RefinesElsewhere(lease, table, issued, op, now);
    CellAt(table, issued, op.key);
    CellAt(table', Issue(issued, op), op.key);
    IdleFrame(lease, table, issued, op, now);
  }

  /** A refused or pointless call leaves every cell alone. */
  lemma IdleFrame(lease: int, table: Table, issued: set<string>, op: Op, now: int)
    ensures Exec(lease, table, op, now).0 == table ==>
      FR.OnlyAt(Abstract(table, issued), Abstract(Exec(lease, table, op, now).0, Issue(issued, op)), {})
  {
  }

  lemma OwnerCallRefines(lease: int, table: Table, issued: set<string>, op: Op, now: int)
    requires TableOk(table) && !op.ClaimOp?
    ensures FR.Next(Abstract(table, issued), Abstract(Exec(lease, table, op, now).0, issued),
                    ActOf(lease, table, op, now))
  {
    var table' := Exec(lease, table, op, now).0;
    RefinesElsewhere(lease, table, issued, op, now);
    CellAt(table, issued, op.key);
    CellAt(table', issued, op.key);
    if op.key in table { assert RowOk(table[op.key]); }
  }

  function AbstractRun(tables: seq<Table>, issued: seq<set<string>>): seq<FR.Register<Fingerprint, Artefact, Outcome>>
    requires |tables| == |issued|
  {
    seq(|tables|, i requires 0 <= i < |tables| => Abstract(tables[i], issued[i]))
  }

  function Acts(lease: int, tables: seq<Table>, ops: seq<Op>, clock: seq<int>)
    : seq<FR.Act<Fingerprint, Artefact, Outcome>>
    requires |tables| == |ops| + 1 && |clock| == |ops|
  {
    seq(|ops|, i requires 0 <= i < |ops| => ActOf(lease, tables[i], ops[i], clock[i]))
  }

  /** Every run of the store is a run of the fenced register in which no life ever ends. */
  lemma RunRefinesRegister(lease: int, tables: seq<Table>, issued: seq<set<string>>, ops: seq<Op>, clock: seq<int>)
    requires IsRun(lease, tables, issued, ops, clock)
    ensures FR.IsRun(AbstractRun(tables, issued), Acts(lease, tables, ops, clock))
    ensures forall i, k :: 0 <= i < |ops| ==> !FR.EndsLife(Acts(lease, tables, ops, clock)[i], k)
  {
    var run, acts := AbstractRun(tables, issued), Acts(lease, tables, ops, clock);
    forall i | 0 <= i < |acts|
      ensures FR.Next(run[i], run[i + 1], acts[i]) && forall k :: !FR.EndsLife(acts[i], k)
    {
      RunKeeps(lease, tables, issued, ops, clock, i);
      assert tables[i + 1] == Exec(lease, tables[i], ops[i], clock[i]).0;
      StoreRefinesRegister(lease, tables[i], issued[i], ops[i], clock[i]);
    }
  }

  predicate Submits(lease: int, table: Table, op: Op, now: int, key: string) {
    op.MarkSubmittedOp? && op.key == key && Exec(lease, table, op, now).1 == Stored
  }

  /** Inherited from the register: a key that was claimed once is never lost, nor what it was committed to. */
  lemma NothingIsLost(
      lease: int, tables: seq<Table>, issued: seq<set<string>>, ops: seq<Op>, clock: seq<int>,
      i: nat, j: nat, key: string)
    requires IsRun(lease, tables, issued, ops, clock) && i <= j < |tables| && key in tables[i]
    ensures key in tables[j] && FR.Keeps(CellOf(tables[i][key]), CellOf(tables[j][key]))
  {
    RunRefinesRegister(lease, tables, issued, ops, clock);
    FR.LifeKeeps(AbstractRun(tables, issued), Acts(lease, tables, ops, clock), i, j, key);
    CellAt(tables[i], issued[i], key);
    CellAt(tables[j], issued[j], key);
  }

  /** Inherited from the register: a key is marked submitted at most once, since no life ends. */
  lemma SubmittedAtMostOnce(
      lease: int, tables: seq<Table>, issued: seq<set<string>>, ops: seq<Op>, clock: seq<int>,
      i: nat, j: nat, key: string)
    requires IsRun(lease, tables, issued, ops, clock) && i < j < |ops|
    requires Submits(lease, tables[i], ops[i], clock[i], key)
    ensures !Submits(lease, tables[j], ops[j], clock[j], key)
  {
    if Submits(lease, tables[j], ops[j], clock[j], key) {
      var acts := Acts(lease, tables, ops, clock);
      RunRefinesRegister(lease, tables, issued, ops, clock);
      assert acts[i].Commit? && acts[i].key == key && acts[j].Commit? && acts[j].key == key;
      FR.CommitOncePerLife(AbstractRun(tables, issued), acts, i, j);
      assert false;
    }
  }
}
