/**
 How long a claim, a lease and an answer of the Bitcoin store last, in clock terms: by the
 readings of the calls of a run, which need not ascend.
 */
module BitcoinStoreClocks {
  import opened Prelude
  import opened Json
  import opened BitcoinStore
  import opened BitcoinStoreProofs

  /** The call draws this token and is given the claim on the key. */
  predicate Grants(cfg: Config, db: Db, op: Op, now: int, key: string, token: string) {
    op.ClaimOp? && op.key == key && op.drawn == token && Exec(cfg, db, op, now).1.Claim?
  }

  /** The claim is given, or a call of its owner that sets the lease anew is accepted. */
  predicate Renews(cfg: Config, db: Db, op: Op, now: int, key: string, token: string) {
    match op
    case ClaimOp(_, _, _, _) => Grants(cfg, db, op, now, key, token)
    case SavePreparedOp(k, t, _, _) => k == key && t == token && Exec(cfg, db, op, now).0 != db
    case MarkBroadcastOp(k, t, _) => k == key && t == token && Exec(cfg, db, op, now).1 == Stored
    case MarkUnknownOp(k, t, _, _) => k == key && t == token && Exec(cfg, db, op, now).1 == Stored
    case HeartbeatOp(k, t) => k == key && t == token && Exec(cfg, db, op, now).1 == Beat(true)
    case _ => false
  }

  // ------------------------------------------------------------ one call

  /** A claim that is given is for the caller's request, under its token, with both clocks running. */
  lemma GrantSets(cfg: Config, db: Db, op: Op, now: int, key: string, token: string)
    requires Grants(cfg, db, op, now, key, token)
    ensures var db' := Exec(cfg, db, op, now).0;
      && OwnedBy(db', key, token) && db'.rows[key].expiresAt == now + cfg.ttl
      && db'.rows[key].leaseExpiresAt == Some(now + cfg.claimLease)
      && db'.rows[key].scope == op.scope && db'.rows[key].requestHash == op.hash
  {
  }

  /** A token not now drawn is given to no row; its row keeps expiry and request, and its lease unless renewed. */
  lemma HeldStep(cfg: Config, db: Db, op: Op, now: int, key: string, token: string)
    requires OwnedBy(Exec(cfg, db, op, now).0, key, token) && !(op.ClaimOp? && op.drawn == token)
    ensures OwnedBy(db, key, token)
    ensures var row, row' := db.rows[key], Exec(cfg, db, op, now).0.rows[key];
      && row'.expiresAt == row.expiresAt && row'.scope == row.scope && row'.requestHash == row.requestHash
      && row'.leaseExpiresAt ==
           if Renews(cfg, db, op, now, key, token) then Some(now + cfg.claimLease) else row.leaseExpiresAt
  {
  }

  // ------------------------------------------------------------ while a token holds the row

  /** Between two calls of the run the owner's lease is not set anew. */
  ghost predicate NoRenewal(
      cfg: Config, dbs: seq<Db>, ops: seq<Op>, clock: seq<int>, h: nat, j: nat, key: string, token: string)
    requires |dbs| == |ops| + 1 && |clock| == |ops| && j <= |ops|
  {
    forall m :: h < m < j ==> !Renews(cfg, dbs[m], ops[m], clock[m], key, token)
  }

  /** Expiry and request of a row, as long as the token it was granted to holds it. */
  lemma {:induction false} HeldSinceGrant(
      cfg: Config, dbs: seq<Db>, issued: seq<set<string>>, ops: seq<Op>, clock: seq<int>,
      g: nat, j: nat, key: string, token: string)
    requires IsRun(cfg, dbs, issued, ops, clock) && g < j < |dbs|
    requires Grants(cfg, dbs[g], ops[g], clock[g], key, token) && OwnedBy(dbs[j], key, token)
    ensures forall m :: g < m <= j ==> OwnedBy(dbs[m], key, token)
    ensures dbs[j].rows[key].expiresAt == clock[g] + cfg.ttl
    ensures dbs[j].rows[key].scope == ops[g].scope && dbs[j].rows[key].requestHash == ops[g].hash
    decreases j
  {
    hide Exec, DbOk, Renews;
    assert dbs[j - 1 + 1] == Exec(cfg, dbs[j - 1], ops[j - 1], clock[j - 1]).0;
    if g < j - 1 {
      IssuedGrows(cfg, dbs, issued, ops, clock, g + 1, j - 1);
      assert token in issued[g + 1];
      HeldStep(cfg, dbs[j - 1], ops[j - 1], clock[j - 1], key, token);
      HeldSinceGrant(cfg, dbs, issued, ops, clock, g, j - 1, key, token);
    } else {
      GrantSets(cfg, dbs[g], ops[g], clock[g], key, token);
    }
  }

  /** The lease of a row is that of the last call that set it. */
  lemma {:induction false} LeaseSinceRenewal(
      cfg: Config, dbs: seq<Db>, issued: seq<set<string>>, ops: seq<Op>, clock: seq<int>,
      g: nat, h: nat, j: nat, key: string, token: string)
    requires IsRun(cfg, dbs, issued, ops, clock) && g <= h < j < |dbs|
    requires Grants(cfg, dbs[g], ops[g], clock[g], key, token) && OwnedBy(dbs[j], key, token)
    requires Renews(cfg, dbs[h], ops[h], clock[h], key, token) && NoRenewal(cfg, dbs, ops, clock, h, j, key, token)
    ensures dbs[j].rows[key].leaseExpiresAt == Some(clock[h] + cfg.claimLease)
    decreases j
  {
    hide Exec, DbOk, Renews;
    assert dbs[j - 1 + 1] == Exec(cfg, dbs[j - 1], ops[j - 1], clock[j - 1]).0;
    HeldSinceGrant(cfg, dbs, issued, ops, clock, g, j, key, token);
    if g < j - 1 {
      IssuedGrows(cfg, dbs, issued, ops, clock, g + 1, j - 1);
      assert token in issued[g + 1];
      HeldStep(cfg, dbs[j - 1], ops[j - 1], clock[j - 1], key, token);
    } else {
      GrantSets(cfg, dbs[g], ops[g], clock[g], key, token);
    }
    if h < j - 1 {
      LeaseSinceRenewal(cfg, dbs, issued, ops, clock, g, h, j - 1, key, token);
    }
  }

  /**
   What a claim meets while another holds the row, exactly, by the clock. With `c` the reading at
   which the row was granted and `t` the reading of the owner's last accepted renewal: at or past
   `c + ttl` the key is claimed afresh; before that another request is refused; and the same
   request is refused before `t + lease` and takes the row over from then on.
   */
  lemma ClaimByTheClock(
      cfg: Config, dbs: seq<Db>, issued: seq<set<string>>, ops: seq<Op>, clock: seq<int>,
      g: nat, h: nat, j: nat, key: string, token: string, scope: string, hash: string, drawn: string, now: int)
    requires IsRun(cfg, dbs, issued, ops, clock) && g <= h < j < |dbs|
    requires Grants(cfg, dbs[g], ops[g], clock[g], key, token) && OwnedBy(dbs[j], key, token)
    requires Renews(cfg, dbs[h], ops[h], clock[h], key, token) && NoRenewal(cfg, dbs, ops, clock, h, j, key, token)
    ensures var (db', reply) := ClaimIdempotent(cfg, dbs[j], key, scope, hash, drawn, now);
      if now >= clock[g] + cfg.ttl then reply == Claim(drawn, State.Claimed, None) && OwnedBy(db', key, drawn)
      else if scope != ops[g].scope || hash != ops[g].hash then reply == Refused(KeyReused) && db' == dbs[j]
      else if now < clock[h] + cfg.claimLease then reply == Refused(InProgress) && db' == dbs[j]
      else reply.Claim? && reply.state == dbs[j].rows[key].state && OwnedBy(db', key, drawn)
  {
    hide DbOk, Renews, Exec;
    HeldSinceGrant(cfg, dbs, issued, ops, clock, g, j, key, token);
    LeaseSinceRenewal(cfg, dbs, issued, ops, clock, g, h, j, key, token);
    RunKeeps(cfg, dbs, issued, ops, clock, j);
    assert RowOk(dbs[j].rows[key], dbs[j].records) by { assert DbOk(dbs[j]); RowsAreOk(dbs[j], key); }
  }

  lemma RowsAreOk(db: Db, key: string)
    requires DbOk(db) && key in db.rows
    ensures RowOk(db.rows[key], db.records)
  {
  }

  /** The last renewal before `j`; there is one, at the latest the grant or the renewal we know of. */
  lemma {:induction false} LastRenewal(
      cfg: Config, dbs: seq<Db>, ops: seq<Op>, clock: seq<int>, i: nat, j: nat, key: string, token: string)
    returns (h: nat)
    requires |dbs| == |ops| + 1 && |clock| == |ops| && i < j <= |ops|
    requires Renews(cfg, dbs[i], ops[i], clock[i], key, token)
    ensures i <= h < j && Renews(cfg, dbs[h], ops[h], clock[h], key, token)
    ensures NoRenewal(cfg, dbs, ops, clock, h, j, key, token)
    decreases j
  {
    hide Renews;
    if i == j - 1 || Renews(cfg, dbs[j - 1], ops[j - 1], clock[j - 1], key, token) {
      h := j - 1;
    } else {
      h := LastRenewal(cfg, dbs, ops, clock, i, j - 1, key, token);
    }
  }

  /**
   A lease keeps others out: granted at `c` and renewed at `t`, by the grant itself or by an accepted
   heartbeat or mark, a row still held under its token refuses every claim of another caller that
   reads less than `t + lease` and less than `c + ttl`, as long as no call of the run in between
   has read less than `t`.
   */
  lemma LeaseKeepsOthersOut(
      cfg: Config, dbs: seq<Db>, issued: seq<set<string>>, ops: seq<Op>, clock: seq<int>,
      g: nat, i: nat, j: nat, key: string, token: string, scope: string, hash: string, drawn: string, now: int)
    requires IsRun(cfg, dbs, issued, ops, clock) && g <= i < j < |dbs|
    requires Grants(cfg, dbs[g], ops[g], clock[g], key, token) && OwnedBy(dbs[j], key, token)
    requires Renews(cfg, dbs[i], ops[i], clock[i], key, token) && forall m :: i < m < j ==> clock[m] >= clock[i]
    requires now < clock[i] + cfg.claimLease && now < clock[g] + cfg.ttl
    ensures ClaimIdempotent(cfg, dbs[j], key, scope, hash, drawn, now) ==
      (dbs[j], Refused(if scope == ops[g].scope && hash == ops[g].hash then InProgress else KeyReused))
  {
    hide Renews, Grants;
    var h := LastRenewal(cfg, dbs, ops, clock, i, j, key, token);
    ClaimByTheClock(cfg, dbs, issued, ops, clock, g, h, j, key, token, scope, hash, drawn, now);
  }

  // ------------------------------------------------------------ expiry

  /** The key's row is there for this request, and outlives this reading. */
  predicate LivesUntil(db: Db, key: string, scope: string, hash: string, until: int) {
    key in db.rows && db.rows[key].scope == scope && db.rows[key].requestHash == hash && db.rows[key].expiresAt >= until
  }

  lemma LivesStep(cfg: Config, db: Db, op: Op, now: int, key: string, scope: string, hash: string, until: int)
    requires LivesUntil(db, key, scope, hash, until) && now < until <= now + cfg.ttl
    ensures LivesUntil(Exec(cfg, db, op, now).0, key, scope, hash, until)
  {
  }

  /**
   How long a claim lasts: after a claim of `key` granted at reading `t`, as long as the calls read
   `t` or more and less than `t + ttl`, the key's row is there, for the same request, and no such
   call ends it.
   */
  lemma {:induction false} ClaimLastsItsTtl(
      cfg: Config, dbs: seq<Db>, issued: seq<set<string>>, ops: seq<Op>, clock: seq<int>, i: nat, j: nat,
      key: string, token: string)
    requires IsRun(cfg, dbs, issued, ops, clock) && i < j < |dbs|
    requires Grants(cfg, dbs[i], ops[i], clock[i], key, token)
    requires forall m :: i < m < j ==> clock[i] <= clock[m] < clock[i] + cfg.ttl
    ensures LivesUntil(dbs[j], key, ops[i].scope, ops[i].hash, clock[i] + cfg.ttl)
    ensures j < |ops| && clock[j] < clock[i] + cfg.ttl ==> !EndsRow(dbs[j], ops[j], clock[j], key)
    decreases j
  {
    hide DbOk, Exec;
    assert dbs[j - 1 + 1] == Exec(cfg, dbs[j - 1], ops[j - 1], clock[j - 1]).0;
    if i < j - 1 {
      ClaimLastsItsTtl(cfg, dbs, issued, ops, clock, i, j - 1, key, token);
      LivesStep(cfg, dbs[j - 1], ops[j - 1], clock[j - 1], key, ops[i].scope, ops[i].hash, clock[i] + cfg.ttl);
    } else {
      GrantSets(cfg, dbs[i], ops[i], clock[i], key, token);
    }
    assert LivesUntil(dbs[j], key, ops[i].scope, ops[i].hash, clock[i] + cfg.ttl);
    LivingRowsStay(dbs[j], key, ops[i].scope, ops[i].hash, clock[i] + cfg.ttl);
  }

  lemma LivingRowsStay(db: Db, key: string, scope: string, hash: string, until: int)
    requires LivesUntil(db, key, scope, hash, until)
    ensures forall op, now :: now < until ==> !EndsRow(db, op, now, key)
  {
  }

  // ------------------------------------------------------------ answers

  /** A settled row whose expiry no call has read yet gives its answer to its own request, and refuses others. */
  lemma {:induction false} AnswerLasts(
      cfg: Config, dbs: seq<Db>, issued: seq<set<string>>, ops: seq<Op>, clock: seq<int>, i: nat, j: nat,
      key: string, scope: string, hash: string, drawn: string, now: int)
    requires IsRun(cfg, dbs, issued, ops, clock) && i <= j < |dbs|
    requires key in dbs[i].rows && Settled(dbs[i].rows[key].state)
    requires forall m :: i <= m < j ==> clock[m] < dbs[i].rows[key].expiresAt
    requires now < dbs[i].rows[key].expiresAt
    ensures var row := dbs[i].rows[key];
      ClaimIdempotent(cfg, dbs[j], key, scope, hash, drawn, now) ==
        (dbs[j], if scope == row.scope && hash == row.requestHash then Replay(row.statusCode, row.response)
                 else Refused(KeyReused))
  {
    SettledUntilExpiry(cfg, dbs, issued, ops, clock, i, j, key);
  }

  lemma {:induction false} SettledUntilExpiry(
      cfg: Config, dbs: seq<Db>, issued: seq<set<string>>, ops: seq<Op>, clock: seq<int>, i: nat, j: nat, key: string)
    requires IsRun(cfg, dbs, issued, ops, clock) && i <= j < |dbs|
    requires key in dbs[i].rows && Settled(dbs[i].rows[key].state)
    requires forall m :: i <= m < j ==> clock[m] < dbs[i].rows[key].expiresAt
    ensures key in dbs[j].rows && dbs[j].rows[key] == dbs[i].rows[key]
    decreases j
  {
    hide DbOk, Exec;
    if i < j {
      SettledUntilExpiry(cfg, dbs, issued, ops, clock, i, j - 1, key);
      RunKeeps(cfg, dbs, issued, ops, clock, j - 1);
      SettledStep(cfg, dbs[j - 1], ops[j - 1], clock[j - 1], key);
      assert dbs[j - 1 + 1] == Exec(cfg, dbs[j - 1], ops[j - 1], clock[j - 1]).0;
    }
  }

  /**
   How long a stored response lasts: accepted at reading `t`, it answers every claim of its request
   that reads less than `t + ttl`, as long as no call in between has read `t + ttl` or more.
   */
  lemma ResponseLastsItsTtl(
      cfg: Config, dbs: seq<Db>, issued: seq<set<string>>, ops: seq<Op>, clock: seq<int>, i: nat, j: nat,
      scope: string, hash: string, drawn: string, now: int)
    requires IsRun(cfg, dbs, issued, ops, clock) && i < j < |dbs|
    requires ops[i].StoreResponseOp? && Exec(cfg, dbs[i], ops[i], clock[i]).1 == Stored
    requires forall m :: i < m < j ==> clock[m] < clock[i] + cfg.ttl
    requires now < clock[i] + cfg.ttl
    ensures ClaimIdempotent(cfg, dbs[j], ops[i].key, scope, hash, drawn, now) ==
      (dbs[j], if scope == ops[i].scope && hash == ops[i].hash then Replay(ops[i].statusCode, ops[i].body)
               else Refused(KeyReused))
  {
    hide DbOk, ClaimIdempotent;
    assert dbs[i + 1] == Exec(cfg, dbs[i], ops[i], clock[i]).0;
    AnswerLasts(cfg, dbs, issued, ops, clock, i + 1, j, ops[i].key, scope, hash, drawn, now);
  }

  /** The body of a stored failure: no success, the error code and the message, and nothing else. */
  ghost predicate FailureAnswer(body: Json, code: string, message: string) {
    && body.Obj? && Get(body.fields, "success") == Bool(false) && Get(body.fields, "errorCode") == Str(code)
    && Get(body.fields, "message") == Str(message)
    && forall k :: Has(body.fields, k) ==> k in {"success", "errorCode", "message"}
  }

  lemma FailureBodySays(row: Row, statusCode: int, code: string, message: string, now: int)
    ensures FailureAnswer(FailedRow(row, statusCode, code, message, now).response, code, message)
  {
    var fields := FailedRow(row, statusCode, code, message, now).response.fields;
    assert DistinctKeys(fields) by { assert |"success"| == 7 && |"errorCode"| == 9 && "success"[0] != "message"[0]; }
    GetFinds(fields, 0);
    GetFinds(fields, 1);
    GetFinds(fields, 2);
  }

  /**
   How long a stored failure lasts: until the expiry the claim was granted with. Every claim of the
   request that reads less is answered with the given status and a body that names code and message.
   */
  lemma FailureLastsItsClaim(
      cfg: Config, dbs: seq<Db>, issued: seq<set<string>>, ops: seq<Op>, clock: seq<int>, g: nat, i: nat, j: nat,
      token: string, drawn: string, now: int)
    requires IsRun(cfg, dbs, issued, ops, clock) && g < i < j < |dbs|
    requires (ops[i].MarkFailedOp? || ops[i].MarkPreparedFailedOp?) && ops[i].token == token
    requires Grants(cfg, dbs[g], ops[g], clock[g], ops[i].key, token)
    requires Exec(cfg, dbs[i], ops[i], clock[i]).1 == Stored
    requires (forall m :: i < m < j ==> clock[m] < clock[g] + cfg.ttl) && now < clock[g] + cfg.ttl
    ensures var (db', reply) := ClaimIdempotent(cfg, dbs[j], ops[i].key, ops[g].scope, ops[g].hash, drawn, now);
      && db' == dbs[j] && reply.Replay? && reply.statusCode == ops[i].statusCode
      && FailureAnswer(reply.body, ops[i].code, ops[i].message)
  {
    hide DbOk, ClaimIdempotent, FailureAnswer;
    var key := ops[i].key;
    assert dbs[i + 1] == Exec(cfg, dbs[i], ops[i], clock[i]).0;
    HeldSinceGrant(cfg, dbs, issued, ops, clock, g, i, key, token);
    FailureBodySays(dbs[i].rows[key], ops[i].statusCode, ops[i].code, ops[i].message, clock[i]);
    AnswerLasts(cfg, dbs, issued, ops, clock, i + 1, j, key, ops[g].scope, ops[g].hash, drawn, now);
  }

  // ------------------------------------------------------------ acceptance

  /**
   On consistent tables, which calls under a token are accepted: the token must hold the row, and
   beyond that only this is asked. Storing a response and saving ask for the row's request; a
   heartbeat for nothing; the marks for their states and, where they name a txid, for the record's.
   */
  predicate Accepts(db: Db, op: Op, key: string) {
    key in db.rows && var row := db.rows[key];
    match op
    case StoreResponseOp(_, scope, hash, _, _, _) => row.scope == scope && row.requestHash == hash
    case SavePreparedOp(_, _, hash, _) => row.requestHash == hash
    case MarkBroadcastOp(_, _, txid) => row.state != State.Claimed && row.paymentHash == Some(txid)
    case MarkUnknownOp(_, _, txid, _) => row.state != State.Claimed && row.paymentHash == Some(txid)
    case MarkFailedOp(_, _, _, _, _) => row.state == State.Claimed
    case MarkPreparedFailedOp(_, _, _, _, _) => row.state == State.Prepared || row.state == Unknown
    case _ => true
  }

  lemma OwnersAreAccepted(cfg: Config, db: Db, op: Op, now: int, key: string, token: string)
    requires DbOk(db) && ActsFor(op, key, token)
    ensures !ReportsLost(Exec(cfg, db, op, now).1) <==> OwnedBy(db, key, token) && Accepts(db, op, key)
  {
    if key in db.rows { assert RowOk(db.rows[key], db.records); }
  }
}
