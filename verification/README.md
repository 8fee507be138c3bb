# Verified model of the money adapters' idempotency protocols

Two adapters move money on behalf of callers who may retry: one broadcasts Bitcoin
transactions, one pays Lightning invoices. Each keeps a SQLite store that hands out a claim
on an idempotency key (a fresh token, a lease and a state), and a handler that talks to a
money rail which may time out, fail or answer late. This project models both stores, both
handlers and the rails as an adversary, and proves what holds in every run: any number of
requests, crashes, stalls, lease takeovers and clock readings, in any interleaving.

## How it is built

- `FencedRegister` is the abstract object: per key an owner with a token, one artefact, one result. A cell
  in use is discarded by two acts only, renewal and expiry; the Lightning store performs neither.
- `BitcoinStore` / `LightningStore` give every store method as one atomic function on the
  tables; `BitcoinStoreProofs` / `LightningStoreProofs` prove the invariants, fencing,
  replay, takeover, and that every run refines a run of the register. `BitcoinStoreClocks` /
  `LightningStoreClocks` say, by the clock, how long claims, leases and answers last, and which calls of
  an owner are accepted.
- `BitcoinCohesionStore` / `LightningCohesionStore` are the stores as classes whose methods
  update the tables in place; each method equals its function and keeps `Valid()`.
- `BitcoinSend` / `LightningPay` are labelled transition systems: workers with a program
  counter, a token and local variables, against an adversary that picks schedules, clock
  readings, identifiers and answers. `BitcoinSendInvariant`, `BitcoinSendSteps` and
  `LightningPayProofs` hold the inductive invariants, `BitcoinSendTheorems`, `BitcoinSendLives`,
  `BitcoinSendBeats`, `BitcoinSendLocks`, `BitcoinSendOwners`, `BitcoinReplay` and `LightningPayTheorems`
  the theorems about runs. `BitcoinSendScenario` spells out a success and two runs that end where a reader
  might not expect.
- `BitcoinSendReasons`, `BitcoinSendOutcomes` and `LightningPayOutcomes` trace rows, records, submissions and
  answers back to what the node, the wallet and LND said in the moves of the run; `BitcoinSendAnswers` and
  `LightningPayAnswers` tie what a caller is told to what the store has recorded.
- `LndClient` is what the Lightning adapter's client makes of LND's replies before a route sees them;
  `LndWords`, `LndHashes` and `LndReplies` say on the characters and fields of a reply what is made of it.
- `BitcoinSendHandler` / `LightningPayHandler` are the handlers in their own imperative form,
  over the class store, with arbitrary interference between any two steps. Their contracts tie
  each call to a worker of the transition system and every world they pass through to a
  reachable one.
- `StripKeys`, `JsonText`, `RequestFingerprint`, `Outputs`, `Amounts`, `LongAmounts`,
  `RateLimit` and `PaymentLookup` model the supporting algorithms; `Prelude`, `Json`, `Numerals` and
  `Sorting` are shared vocabulary.

A Bitcoin row can be deleted once it has expired, in any state, and its key can be claimed
anew. Results about the Bitcoin path are therefore stated per *life* of a key: the
transition system numbers the rows each key has had. Lightning rows are never deleted.

## What the code does that its prose might not suggest

- BROADCAST is not final: a later owner that submits again and loses the node's answer moves the
  row to UNKNOWN, and the next one, if the mempool then rejects the transaction, to FAILED_FINAL, with
  the record, once stamped broadcast, now rejected (`BitcoinSendScenario.BroadcastCanStillFail`). That is
  the only way: while its row lives, a broadcast stays broadcast or succeeds if and only if no
  `mark_unknown` on the key is accepted (`BitcoinStoreProofs.BroadcastFinalUnlessDoubted`, and
  `BitcoinSendLives.BroadcastFinalInRun` for the whole system).
- A Lightning success can be a guess. The status of a payment call is written by the adapter's own
  client: "submitted" unless LND names an error. A reply that names neither an error nor a hash, an
  empty body for one, settles the row as SUCCEEDED (`LightningPayTheorems.SuccessCanBeGuessed`); a
  success is LND's word on this payment exactly when the reply carries a hash
  (`LightningPayProofs.PaySettles`, `LndReplies.PaySettlesExactly`). The route's branch for an unknown payment state never fires.
- A payment hash counts only as hexadecimal text under `payment_hash` or as base64 bytes under
  `payment_hash_bytes`. The other way round the row becomes UNKNOWN even if the hash is its own: base64 under
  `payment_hash` is compared as it stands, and hexadecimal under `payment_hash_bytes` is decoded as base64
  (`LndReplies.BytesUnderTheNameNeverSettle`, `LndReplies.HexUnderTheBytesNeverSettles`).
- A rejection met while the row says BROADCAST is the one call that a worker makes for a claim it holds and
  that is refused as lost (`BitcoinSendOwners.LostExactlyWhen`).
- `load_prepared_broadcast` does not look at the token. A worker that has lost its claim can
  load another owner's record; the heartbeat before any submission is what stops it.
- The heartbeat does not fence the node. A worker that stalls after it can still submit once the row is
  another's (`BitcoinSendScenario.StalledWorkerStillSends`), but only the transaction it held the row for
  at that heartbeat (`BitcoinSendBeats.SubmittersHeldTheRow`).
- A malformed txid from `sendrawtransaction` raises a client error that nothing catches in the
  handler: the row stays PREPARED and is retried with the same bytes.
- `mark_failed` of the Bitcoin store is not called by its service, and `get_replay` only by tests.
- A Lightning retry looks up the hash of the invoice as decoded now, not the stored one.
- An amount of more than 28 digits is rounded to 28 before it is truncated. "0." with 29 nines comes
  out a satoshi too high, the integer 10^28 + 1 a whole bitcoin too low; `LongAmounts.TruncatesExactlyWhen`
  says for every amount, from its digits, whether the result is right. A JSON float prints at most 17
  significant digits, so only an integer or a text of that length can meet this.

## Model

| member | source | states |
|---|---|---|
| FencedRegister.SpentForever | bitcoin_core_backend/src/infra/store.py:150-173 | in the abstract register an issued token that owns nothing never owns any key again |
| FencedRegister.LifeKeeps | bitcoin_core_backend/src/infra/store.py:221-327 | as long as no act discards the cell, the request never changes, the artefact is never replaced, and an owner or a result is never lost |
| FencedRegister.CommitOncePerLife | bitcoin_core_backend/src/infra/store.py:248-313 | two commits on one key have an act strictly between them that discards the cell |
| BitcoinCohesionStore.CohesionStore.GetReplay | bitcoin_core_backend/src/infra/store.py:54-75 | answers a settled, unexpired row with its stored response, refuses another request, changes nothing |
| BitcoinCohesionStore.CohesionStore.ClaimIdempotent | bitcoin_core_backend/src/infra/store.py:77-184 | the two tables and the reply after one claim: new row, takeover, replay or refusal |
| BitcoinCohesionStore.CohesionStore.StoreResponse | bitcoin_core_backend/src/infra/store.py:186-219 | settles the row as SUCCEEDED for its owner, refuses everybody else |
| BitcoinCohesionStore.CohesionStore.SavePreparedBroadcast | bitcoin_core_backend/src/infra/store.py:221-327 | inserts exactly one record and links it, or hands back the linked one, or refuses |
| BitcoinCohesionStore.CohesionStore.LoadPreparedBroadcast | bitcoin_core_backend/src/infra/store.py:329-340 | the linked record of the row with this key and request, whoever asks and whether or not it has expired; never reports corruption |
| BitcoinCohesionStore.CohesionStore.MarkBroadcast | bitcoin_core_backend/src/infra/store.py:342-365 | row to BROADCAST and its record to broadcast, under token, state and txid guard |
| BitcoinCohesionStore.CohesionStore.MarkFailed | bitcoin_core_backend/src/infra/store.py:367-391 | settles the owner's CLAIMED row as FAILED_FINAL with the error body |
| BitcoinCohesionStore.CohesionStore.MarkPreparedFailed | bitcoin_core_backend/src/infra/store.py:393-428 | row to FAILED_FINAL and its record to rejected, under token and state guard |
| BitcoinCohesionStore.CohesionStore.MarkUnknown | bitcoin_core_backend/src/infra/store.py:430-450 | row to UNKNOWN with the clipped error, record untouched |
| BitcoinCohesionStore.CohesionStore.HeartbeatClaim | bitcoin_core_backend/src/infra/store.py:452-463 | extends the lease of the token's own unsettled row, says whether it did |
| BitcoinCohesionStore.CohesionStore.RecordTransaction | bitcoin_core_backend/src/infra/store.py:523-561 | adds one record under a new id, changes nothing else |
| BitcoinCohesionStore.CohesionStore.PruneExpired | bitcoin_core_backend/src/infra/store.py:598-602 | removes exactly the expired rows, reports how many, keeps every record |
| BitcoinStoreProofs.ExecKeepsOk | bitcoin_core_backend/src/infra/store.py:77-463 | every method keeps rows and records consistent, at any clock reading and for any caller |
| BitcoinStoreProofs.RecordsImmutable | bitcoin_core_backend/src/infra/store.py:221-327 | psbt, raw transaction and txid of a record are never rewritten, records never dropped |
| BitcoinStoreProofs.NeverCorrupt | bitcoin_core_backend/src/infra/store.py:477-513 | on consistent tables no call reports PREPARED_BROADCAST_CORRUPT |
| BitcoinStoreProofs.PruneCounts | bitcoin_core_backend/src/infra/store.py:598-602 | the reported number is the number of expired rows |
| BitcoinStoreProofs.LostClaimIsNoOp | bitcoin_core_backend/src/infra/store.py:186-463 | a call under a token the row does not carry changes neither table and reports the loss |
| BitcoinStoreProofs.FencedForever | bitcoin_core_backend/src/infra/store.py:150-173 | in any run, once a row has carried a token and carries it no more (replaced, settled or deleted), every later call under it changes neither table and reports the loss, also across re-creation of the key, whatever the clock does |
| BitcoinStoreProofs.UnownedForever | bitcoin_core_backend/src/infra/store.py:77-184 | a key that does not carry an issued token never carries it again |
| BitcoinStoreProofs.TakeOverChecksAgree | bitcoin_core_backend/src/infra/store.py:142-173 | exactly when the Python lease test and the SQL guard disagree: never on a row the store writes |
| BitcoinStoreProofs.TakeOverProgress | bitcoin_core_backend/src/infra/store.py:142-181 | a matching claim is refused exactly while the lease runs, then keeps state, record and hash and installs the new token |
| BitcoinStoreProofs.BroadcastFinalUnlessDoubted | bitcoin_core_backend/src/infra/store.py:342-450 | while the row lives, it says BROADCAST or SUCCEEDED all the way between two points of a run if and only if no `mark_unknown` on the key is accepted between them |
| BitcoinStoreProofs.DoubtedCanFail | bitcoin_core_backend/src/infra/store.py:393-428 | every run that has reached UNKNOWN goes on to FAILED_FINAL by one `mark_prepared_failed` of the row's owner, whatever it says and whenever it comes |
| BitcoinStoreProofs.ReplayAgreesWithClaim | bitcoin_core_backend/src/infra/store.py:54-140 | `get_replay` and `claim_idempotent` give the same answer at each instant |
| BitcoinStoreProofs.ReplayIsStable | bitcoin_core_backend/src/infra/store.py:127-140 | until it expires a settled row replays the same status and body, and refuses every other request |
| BitcoinStoreProofs.StoreRefinesRegister | bitcoin_core_backend/src/infra/store.py:77-463 | every call of every method is one act of the fenced register, and it discards a key's cell if and only if it prunes or claims the key's expired row |
| BitcoinStoreProofs.RunRefinesRegister | bitcoin_core_backend/src/infra/store.py:77-463 | every run of the store is a run of the register whose cells are discarded exactly where rows end |
| BitcoinStoreProofs.OneTransactionPerLife | bitcoin_core_backend/src/infra/store.py:248-313 | between two persisted transactions of a key its row has expired and was pruned or claimed anew |
| BitcoinStoreClocks.ClaimByTheClock | bitcoin_core_backend/src/infra/store.py:77-184 | while a token holds a row, what any other claim meets, exactly, by three readings: the grant, the owner's last accepted renewal and the claim's own: afresh from `grant + ttl`, refused before `renewal + lease`, takeover in between, other requests refused |
| BitcoinStoreClocks.LeaseKeepsOthersOut | bitcoin_core_backend/src/infra/store.py:142-148 | after a grant, an accepted heartbeat, save or mark at reading t every other claim below `t + lease` is refused while the token holds the row and no call in between reads less than t |
| BitcoinStoreClocks.ClaimLastsItsTtl | bitcoin_core_backend/src/infra/store.py:105-119 | after a claim granted at reading t the row is there for the same request, and no call that reads less than `t + ttl` ends it, as long as calls read t or more |
| BitcoinStoreClocks.ResponseLastsItsTtl | bitcoin_core_backend/src/infra/store.py:186-219 | a response accepted at reading t answers every claim of its request that reads less than `t + ttl`, and refuses other requests |
| BitcoinStoreClocks.FailureLastsItsClaim | bitcoin_core_backend/src/infra/store.py:367-428 | a recorded failure answers with its status, code and message until the expiry the claim was granted with |
| BitcoinStoreClocks.OwnersAreAccepted | bitcoin_core_backend/src/infra/store.py:186-463 | a call under a token is accepted if and only if the token holds the row and the row is of the request, state and txid the call asks for |
| BitcoinSendSteps.StepKeepsInv | bitcoin_core_backend/src/services/bitcoin_service.py:169-277 | every step of any worker, a crash, an arrival or a pruning keeps the global invariant |
| BitcoinSendSteps.ReachableInv | bitcoin_core_backend/src/services/bitcoin_service.py:169-277 | the invariant holds in every world of every run |
| BitcoinSendTheorems.SameBytesPerLife | bitcoin_core_backend/src/services/bitcoin_service.py:189-277 | all submissions in one life of a key carry the same bytes, committed before the first of them |
| BitcoinSendTheorems.SubmitsCommittedBytes | bitcoin_core_backend/src/services/bitcoin_service.py:246-247 | what a worker is about to submit is the committed record of its own life |
| BitcoinSendTheorems.SuccessMeansBroadcast | bitcoin_core_backend/src/api/app.py:307-341 | a SUCCEEDED send row has a broadcast record, and response, row and record name one txid |
| BitcoinSendTheorems.RowsAndRecordsAgree | bitcoin_core_backend/src/infra/store.py:248-313 | CLAIMED rows have no record; PREPARED, BROADCAST and UNKNOWN rows have exactly one, of the same request and txid, shared with no other row |
| BitcoinSendTheorems.RecordsNeverChange | bitcoin_core_backend/src/infra/store.py:221-327 | a record's psbt, bytes and txid are the same in every later world |
| BitcoinSendTheorems.CorruptIsUnreachable | bitcoin_core_backend/src/infra/store.py:477-513 | no worker of any run is ever told its prepared state is corrupt |
| BitcoinSendLocks.LockDiscipline | bitcoin_core_backend/src/services/bitcoin_service.py:190-245 | a finished call has released exactly the PSBT it funded, if it inserted no record in the whole run, and the PSBT of the record it marked rejected in the run |
| BitcoinSendLocks.NotesTellTheRun | bitcoin_core_backend/src/services/bitcoin_service.py:190-245 | a worker's notes "persisted" and "rejected" say exactly what its steps in the run did to the records |
| BitcoinSendLocks.PersistingIsNoted | bitcoin_core_backend/src/infra/store.py:265-313 | the note "persisted" is set exactly by the step that inserts a record |
| BitcoinSendLocks.RejectionIsNoted | bitcoin_core_backend/src/services/bitcoin_service.py:228-239 | a record becomes rejected only through a worker that carries it and goes on to unlock its PSBT |
| BitcoinSendTheorems.AlreadyAttachedIsUnreachable | bitcoin_core_backend/src/infra/store.py:254-263 | a worker about to save, if it still owns the row, finds no record attached |
| BitcoinSendTheorems.StalledRequestsCanResume | bitcoin_core_backend/src/infra/store.py:142-181 | takeover progress for every row that any run can produce |
| BitcoinSendTheorems.StepIsAStoreCall | bitcoin_core_backend/src/services/bitcoin_service.py:169-277 | each step is one store call with a fresh identifier or leaves the tables alone |
| BitcoinSendTheorems.UnownedInRun | bitcoin_core_backend/src/infra/store.py:77-184 | in a run of the protocol, a key that does not carry an issued token never carries it again |
| BitcoinSendTheorems.FencedWorker | bitcoin_core_backend/src/services/bitcoin_service.py:366-372 | a worker whose row has carried its token and carries it no more changes nothing at any later call and is told so |
| BitcoinSendOwners.LostExactlyWhen | bitcoin_core_backend/src/services/bitcoin_service.py:221-277 | in a run a worker's call for its claim is refused as lost if and only if the row no longer carries its token, or it is a rejection and the row says BROADCAST |
| BitcoinSendScenario.BroadcastCanStillFail | bitcoin_core_backend/src/services/bitcoin_service.py:221-277 | for every send request there is a run in which its row is BROADCAST over a broadcast record, and later FAILED_FINAL over the same record, rejected |
| BitcoinSendScenario.SendCanSucceed | bitcoin_core_backend/src/services/bitcoin_service.py:169-277 | for every send request there is a run that submits, stores its success and answers it |
| BitcoinSendScenario.StalledWorkerStillSends | bitcoin_core_backend/src/services/bitcoin_service.py:221-247 | for every send request there is a run whose last step is a submission by a worker that holds the row no longer |
| BitcoinSendBeats.SubmittersHeldTheRow | bitcoin_core_backend/src/services/bitcoin_service.py:221-247 | every submission of every run was made by a worker that had an earlier heartbeat accepted, with the key's row open under its token and the submitted transaction in hand |
| BitcoinSendBeats.CheckedAfterBeat | bitcoin_core_backend/src/services/bitcoin_service.py:221-277 | the same for every point after the heartbeat, up to the last store call |
| BitcoinSendLives.BroadcastFinalInRun | bitcoin_core_backend/src/services/bitcoin_service.py:221-277 | in a run of the whole system a row that does not end says BROADCAST or SUCCEEDED all the way if and only if no worker's `mark_unknown` on the key is accepted |
| BitcoinSendLives.DoubtsCarry | bitcoin_core_backend/src/services/bitcoin_service.py:248-275 | an accepted `mark_unknown` is that of a worker that holds the claim and carries the row's own record |
| BitcoinSendLives.SettledKeysReplay | bitcoin_core_backend/src/infra/store.py:127-140 | in a run of the whole system, until its row ends, a settled key answers a later claim of the same request with the stored status and the tagged body, and refuses other requests |
| BitcoinSendLives.DifferentBytesMeanExpiry | bitcoin_core_backend/src/services/bitcoin_service.py:189-277 | if two submissions of one key carry different bytes, then between the steps that committed them the key's row was pruned or claimed anew at a clock past its expiry |
| BitcoinSendOutcomes.BroadcastIsTheNodesWord | bitcoin_core_backend/src/services/bitcoin_service.py:221-277 | a send row is BROADCAST or SUCCEEDED only if, at an earlier step, a worker of its key that carried the row's own record heard that the transaction is known, or that its submission was taken under the record's txid |
| BitcoinSendOutcomes.RejectionIsTheNodesWord | bitcoin_core_backend/src/services/bitcoin_service.py:226-245 | a row is FAILED_FINAL only if one worker heard that the mempool refuses the row's own record and, later, that the node does not know it; the stored answer is 409 MEMPOOL_REJECTED |
| BitcoinSendOutcomes.DoubtIsTheNodesWord | bitcoin_core_backend/src/services/bitcoin_service.py:246-275 | a row is UNKNOWN only if a worker that carried the row's own record lost the answer to its submission and, later, heard that the node does not know it, or was answered with another txid |
| BitcoinSendOutcomes.AnswersRestOnTheNode | bitcoin_core_backend/src/services/bitcoin_service.py:169-277 | a finished send request ends with one of its known outcomes, each only after the answers of the node it stands for: success, rejection, mismatch, unknown result with its status, invalid txid, switched off, unconfirmed, unsigned, internal |
| BitcoinSendOutcomes.SuccessAnswersWithTheRecord | bitcoin_core_backend/src/services/bitcoin_service.py:374-383 | a stored send success has status 200 and names number, wallet, txid, fee and total of the very record the row is linked to |
| BitcoinSendOutcomes.SubmissionsAreCleared | bitcoin_core_backend/src/services/bitcoin_service.py:178-247 | before every submission the same worker heard that broadcasting is on and confirmed, that the node does not know the transaction, and then that the mempool takes it |
| BitcoinSendOutcomes.RecordsAreSigned | bitcoin_core_backend/src/services/bitcoin_service.py:190-219 | every persisted record holds what the wallet funded and then signed for a worker of its key: bytes, txid, outputs, fee, total, and the signed PSBT or, for want of one, the funded |
| BitcoinSendOutcomes.SubmissionsAreSigned | bitcoin_core_backend/src/services/bitcoin_service.py:190-247 | every submission carries bytes the wallet signed for a worker of the key |
| BitcoinSendAnswers.AnswersAreRecorded | bitcoin_core_backend/src/api/app.py:318-342 | what a finished request with a claim was told has happened: its 2xx answer was stored with this status and body, its rejection or doubt was recorded, its lost claim was the store's reply |
| BitcoinReplay.TagsKeepTheRest | bitcoin_core_backend/src/api/app.py:311-316 | a tagged replay names the new request and that it is a replay; every other key is there if and only if it was, with the same value |
| BitcoinReplay.ReplayNamesTheBroadcast | bitcoin_core_backend/src/api/app.py:307-316 | a replay of a send success answers 200 with the txid, number, wallet, fee and total of the row's broadcast record and the new request's id |
| BitcoinSendHandler.SendService.SendTransaction | bitcoin_core_backend/src/api/app.py:284-342 | the request ends as its worker ends, in a reachable world, whatever runs in between |
| BitcoinSendHandler.SendService.CreateSignAndSend | bitcoin_core_backend/src/services/bitcoin_service.py:169-277 | returns with the worker ready to store the broadcast result, or ended with the error raised |
| BitcoinSendHandler.SendService.FundAndPersist | bitcoin_core_backend/src/services/bitcoin_service.py:190-219 | funds, signs and persists, and unlocks the PSBT on every failure after funding |
| BitcoinSendHandler.SendService.Submit | bitcoin_core_backend/src/services/bitcoin_service.py:221-277 | heartbeat, then lookup, mempool check and broadcast of the prepared transaction, stopping at a lost claim |
| BitcoinSendHandler.SendService.GiveUp | bitcoin_core_backend/src/services/bitcoin_service.py:232-245 | the record is marked rejected before its inputs are unlocked, and only under the worker's own claim |
| BitcoinSendHandler.SendService.Reject | bitcoin_core_backend/src/services/bitcoin_service.py:228-245 | looks the rejected transaction up once more, and gives it up only if the node does not know it |
| BitcoinSendHandler.SendService.StoreAnswer | bitcoin_core_backend/src/api/app.py:331-341 | the answer is given only if it was stored under the worker's own claim |
| BitcoinSendHandler.SendService.Transmit | bitcoin_core_backend/src/services/bitcoin_service.py:246-247 | hands the node exactly the carried bytes, and records it |
| LightningCohesionStore.CohesionStore.ClaimIdempotent | lightning_flask/src/infra/cohesion.py:113-199 | the table and the reply after one claim: new row, takeover, replay or refusal |
| LightningCohesionStore.CohesionStore.SaveIdempotent | lightning_flask/src/infra/cohesion.py:201-229 | settles the owner's row with the stripped response, refuses everybody else |
| LightningCohesionStore.CohesionStore.MarkSubmitted | lightning_flask/src/infra/cohesion.py:231-248 | CLAIMED to SUBMITTED for the owner only |
| LightningCohesionStore.CohesionStore.MarkFailed | lightning_flask/src/infra/cohesion.py:250-276 | settles the owner's row as FAILED_FINAL with the error body |
| LightningCohesionStore.CohesionStore.MarkUnknown | lightning_flask/src/infra/cohesion.py:278-305 | SUBMITTED or UNKNOWN to UNKNOWN for the owner only |
| LightningCohesionStore.CohesionStore.HeartbeatClaim | lightning_flask/src/infra/cohesion.py:307-318 | extends the lease of the token's own unsettled row, says whether it did |
| LightningStoreProofs.ExecKeepsOk | lightning_flask/src/infra/cohesion.py:113-318 | every method keeps the table consistent |
| LightningStoreProofs.ExecGoesOnward | lightning_flask/src/infra/cohesion.py:231-248 | rows stay, keep their request, never return to CLAIMED, and a settled row never changes |
| LightningStoreProofs.LostClaimIsNoOp | lightning_flask/src/infra/cohesion.py:201-318 | a call under a token the row does not carry changes nothing and reports the loss |
| LightningStoreProofs.FencedForever | lightning_flask/src/infra/cohesion.py:166-196 | in any run, once a row has carried a token and carries it no more (replaced or settled), every later call under it changes nothing and reports the loss, whatever the clock does |
| LightningStoreProofs.UnheldForever | lightning_flask/src/infra/cohesion.py:113-199 | a key that does not carry an issued token never carries it again |
| LightningStoreProofs.TakeOverChecksAgree | lightning_flask/src/infra/cohesion.py:166-196 | exactly when the Python lease test and the SQL guard disagree: never on a row the store writes |
| LightningStoreProofs.TakeOverProgress | lightning_flask/src/infra/cohesion.py:166-196 | a matching claim is refused exactly while the lease runs, then keeps the state and installs the new token |
| LightningStoreProofs.ReplayIsForever | lightning_flask/src/infra/cohesion.py:153-164 | a settled row replays the same status and body for ever, and refuses every other request |
| LightningStoreProofs.ReplayedBodyIsStripped | lightning_flask/src/infra/cohesion.py:201-229 | the body replayed after a success is the first response with the sensitive keys stripped at every depth |
| LightningStoreProofs.StoreRefinesRegister | lightning_flask/src/infra/cohesion.py:113-318 | every call of every method is one act of the same fenced register, and none discards a cell |
| LightningStoreProofs.RunRefinesRegister | lightning_flask/src/infra/cohesion.py:113-318 | every run of the store is a run of the register in which no cell is ever discarded |
| LightningStoreProofs.NothingIsLost | lightning_flask/src/infra/cohesion.py:113-318 | so a key once claimed keeps its request, its commitment to pay and its result for ever |
| LightningStoreProofs.SubmittedAtMostOnce | lightning_flask/src/infra/cohesion.py:231-248 | `mark_submitted` succeeds at most once per key, derived from the register |
| LightningStoreClocks.ClaimByTheClock | lightning_flask/src/infra/cohesion.py:113-199 | while a token holds a row, another claim of the request is refused before the owner's last accepted renewal plus the lease, and takes over from then on; other requests are refused |
| LightningStoreClocks.LeaseKeepsOthersOut | lightning_flask/src/infra/cohesion.py:166-196 | after a grant, an accepted heartbeat or mark at reading t every other claim below `t + lease` is refused while the token holds the row and no call in between reads less than t |
| LightningStoreClocks.HashIsTheLastWritten | lightning_flask/src/infra/cohesion.py:113-318 | a row's payment hash is the one given by the last call that wrote one |
| LightningStoreClocks.FailureIsForever | lightning_flask/src/infra/cohesion.py:250-284 | a recorded failure answers every later claim of its request with its status, code and message |
| LightningStoreClocks.ReplayHidesSecrets | lightning_flask/src/infra/cohesion.py:201-229 | no replay shows a payment preimage or a payment route, at any depth, in any case of letters |
| LightningStoreClocks.OwnersAreAccepted | lightning_flask/src/infra/cohesion.py:201-318 | a call under a token is accepted if and only if the token holds the row and the row is of the request and state the call asks for |
| LightningPayProofs.StepKeepsInv | lightning_flask/src/api/app.py:309-438 | every step of any worker, a crash or an arrival keeps the global invariant |
| LightningPayProofs.ReachableInv | lightning_flask/src/api/app.py:309-438 | the invariant holds in every world of every run |
| LightningPayTheorems.PaidAtMostOncePerKey | lightning_flask/src/api/app.py:309-374 | LND is asked to pay at most once per idempotency key, in every run |
| LightningPayTheorems.PaidOnlyWhenSubmitted | lightning_flask/src/api/app.py:369-374 | after a payment call the key's row exists and is never CLAIMED again |
| LightningPayTheorems.OutcomesRestOnReplies | lightning_flask/src/api/app.py:318-438 | in every run, by what LND told a worker of the row's own request: a failed payment row was named failed, under this payment's hash or in reply to the call under none, or never paid; a succeeded one was listed as succeeded under this payment's hash, or the call to pay was answered without an error, under this hash or none |
| LightningPayTheorems.SettlesOnReplies | lightning_flask/src/api/app.py:334-438 | the settling call is made by a worker of the row's request to whom LND gave such a reply, about this payment, itself |
| LightningPayTheorems.SuccessCanBeGuessed | lightning_flask/src/infra/lnd.py:75-98 | for every payment request there is a run in which its row is SUCCEEDED and all LND ever said was a reply without error and without hash |
| LndWords.StatusesExactly | lightning_flask/src/api/app.py:500-508 | a status means success, failure or flight if and only if it spells one of the words of that table, in any mix of case and with any white space around it |
| LndWords.StatusReads | lightning_flask/src/api/app.py:500-508 | the same for a status of any JSON kind: only texts mean anything |
| LndHashes.Base64ReadsBack | lightning_flask/src/infra/lnd.py:236-243 | the base64 text of any bytes is read as their hexadecimal digits |
| LndReplies.HashIsTheOneNamed | lightning_flask/src/infra/lnd.py:84 | the hash read off a reply is, letter by letter and in lower case, the text under `payment_hash` or else the bytes under `payment_hash_bytes` in hexadecimal; none if both are absent or empty |
| LndReplies.PaySettlesExactly | lightning_flask/src/api/app.py:389-438 | by the fields of LND's reply: a hash named that is not this payment's leaves the row UNKNOWN with 502; otherwise an error named fails it with 409; otherwise it succeeds with 202 and LND's hash and the fee limit in the answer |
| LndReplies.AnotherHashNeverSettles | lightning_flask/src/api/app.py:389-401 | a reply that names another payment's hash never settles the row, whatever else it says |
| LndReplies.BytesUnderTheNameNeverSettle | lightning_flask/src/infra/lnd.py:84 | the base64 text of a hash under `payment_hash` never settles the row |
| LndReplies.HexUnderTheBytesNeverSettles | lightning_flask/src/infra/lnd.py:236-243 | a hexadecimal hash under `payment_hash_bytes` never settles the row |
| LndReplies.LookupSettlesExactly | lightning_flask/src/api/app.py:318-367 | whatever the server answers, a lookup speaks of this request's hash; the row succeeds with 202 and hash, status, value, fee and time as listed, fails with 409, or stays in doubt with 409, as the status of the first listing under that hash spells a word for success, for failure, or neither |
| LightningPayOutcomes.SuccessIsLndsWord | lightning_flask/src/api/app.py:318-438 | a payment row is SUCCEEDED only if, at an earlier step, a worker of its own request heard that LND lists this payment with a word for success, or that LND takes the call to pay without an error or another hash |
| LightningPayOutcomes.FailureIsLndsWord | lightning_flask/src/api/app.py:318-438 | a row that LND was asked to pay is FAILED_FINAL only if, at an earlier step, a worker of its own request heard that LND lists this payment with a word for failure, or refuses the call to pay under this hash or none |
| LightningPayOutcomes.DoubtIsLndsSilence | lightning_flask/src/api/app.py:318-438 | a row is UNKNOWN only if, at an earlier step, a worker of its own request got no answer, or one that neither takes nor refuses this payment |
| LightningPayAnswers.AnswersAreRecorded | lightning_flask/src/api/app.py:103-118 | what a finished request with a claim was told has happened: its answer was stored, its error was recorded as outcome or doubt or is LND's refusal of an invoice, its lost claim was the store's reply |
| LightningPayTheorems.LostExactlyWhen | lightning_flask/src/infra/cohesion.py:201-318 | in a run a request's call for its claim is refused as lost if and only if the row does not carry its token |
| LightningPayProofs.EmptyReplySettles | lightning_flask/src/infra/lnd.py:206-207 | an answer without a body leads to success |
| LightningPayProofs.PayStateIsAlwaysKnown | lightning_flask/src/infra/lnd.py:93-98 | the client writes only two states, so the route's unknown-state branch is dead |
| LightningPayTheorems.HandlerFailsOnlyUnsent | lightning_flask/src/api/app.py:103-118 | the generic 4xx handler fails only rows for which no payment call was ever made |
| LightningPayTheorems.RetriesNeverPay | lightning_flask/src/api/app.py:318-367 | once a request was allowed to pay, no other request of the key pays or can be allowed to |
| LightningPayTheorems.StepIsAStoreCall | lightning_flask/src/api/app.py:309-438 | each step is one store call with a fresh identifier or leaves the table alone |
| LightningPayTheorems.FencedWorker | lightning_flask/src/infra/cohesion.py:201-318 | a request whose row has carried its token and carries it no more changes nothing at any later call for its claim and is told so |
| LightningPayTheorems.SettledKeysReplay | lightning_flask/src/infra/cohesion.py:153-164 | in a run of the whole system a later claim of a settled key ends with the stored status and body, or is refused if the request differs |
| LightningPayHandler.PaymentService.PayInvoice | lightning_flask/src/api/app.py:309-438 | the request ends as its worker ends, in a reachable world, whatever runs in between |
| LightningPayHandler.PaymentService.Reconcile | lightning_flask/src/api/app.py:318-367 | a retry asks, records what LND said, and never pays |
| LightningPayHandler.PaymentService.Pay | lightning_flask/src/api/app.py:370-438 | one call to pay; LND's reply goes through the client, and the route's reading of it decides the outcome |
| LightningPayHandler.PaymentService.ApiError | lightning_flask/src/api/app.py:103-118 | a client error fails the claim only while it is this request's and CLAIMED |
| LightningPayHandler.PaymentService.CreateInvoice | lightning_flask/src/api/app.py:184-205 | the invoice route: claim, create, store, with the same error handler |
| StripKeys.StripKeepsTheRestInPlace | lightning_flask/src/infra/cohesion.py:431-438 | exactly the paths through a forbidden key disappear, everything else stays where it was |
| StripKeys.StripTwice | lightning_flask/src/infra/cohesion.py:431-438 | stripping by two sets in turn is stripping by their union |
| StripKeys.StripIsIdempotentAndCommutes | lightning_flask/src/infra/cohesion.py:431-438 | stripping again changes nothing, and the order of two strippings does not matter |
| JsonText.ValueReadsBack | bitcoin_core_backend/src/core/validation.py:143-149 | compact JSON text, ASCII escapes and surrogate pairs included, reads back as the value it was written from |
| JsonText.PrintIsInjective | bitcoin_core_backend/src/core/validation.py:143-149 | different values have different texts |
| RequestFingerprint.SortDecidesSame | bitcoin_core_backend/src/core/validation.py:143-149 | sorting keys at every depth identifies exactly the values that are equal up to key order |
| RequestFingerprint.TextIdentifiesTheRequest | bitcoin_core_backend/src/core/validation.py:143-149 | two requests have the same pre-hash text if and only if method up to case, path and body up to key order agree |
| RequestFingerprint.TextReadsBack | bitcoin_core_backend/src/services/bitcoin_service.py:437-438 | a parser recovers the upper-cased method, the path and the key-sorted body from the text |
| RequestFingerprint.KeyOrderIsIrrelevant | bitcoin_core_backend/src/core/validation.py:143-149 | bodies whose fields arrive in another order have the same text |
| Outputs.NormalizeOutputs | bitcoin_core_backend/src/core/validation.py:120-140 | the loop over a growing dictionary returns the specified list, or the first problem met |
| Outputs.AcceptsExactly | bitcoin_core_backend/src/core/validation.py:120-140 | accepted exactly when non-empty, within the count, valid throughout and within the grand total |
| Outputs.ItemsAreReadExactly | bitcoin_core_backend/src/core/validation.py:44-105 | an item is read as an address and an amount if and only if it holds 14 to 120 letters and digits and a positive number, as an integer or as its digits after any zeros |
| Outputs.FirstProblemDecides | bitcoin_core_backend/src/core/validation.py:120-140 | the first item that is not read, or that takes its address beyond the limit, decides the problem reported |
| Outputs.ConservesValue | bitcoin_core_backend/src/core/validation.py:129-140 | every address receives the sum of its items, the total is conserved, the list is strictly sorted with positive amounts |
| Outputs.OrderIsIrrelevant | bitcoin_core_backend/src/core/validation.py:120-140 | every permutation of the items is accepted alike and gives the same list |
| Outputs.NormalizeIsIdempotent | bitcoin_core_backend/src/core/validation.py:120-140 | normalizing a normal form changes nothing |
| Outputs.NormalFormIsUnique | bitcoin_core_backend/src/core/validation.py:140 | the normal form is determined by the amount each address receives |
| Amounts.RoundTrip | bitcoin_core_backend/src/core/validation.py:107-117 | printing succeeds exactly below 10^28 satoshis, and what is printed reads back as the same number |
| Amounts.TruncatesTowardZero | bitcoin_core_backend/src/core/validation.py:112-117 | within 28 digits an amount becomes its satoshis without the fraction, or overflows exactly beyond the exponent range |
| Amounts.TruncationIsUnique | bitcoin_core_backend/src/core/validation.py:117 | at most one integer is the truncation of an amount |
| Amounts.OddSymmetry | bitcoin_core_backend/src/core/validation.py:112-117 | negating a text that begins with a digit or a point negates the result and changes no refusal |
| Amounts.ScientificReads | bitcoin_core_backend/src/core/validation.py:114 | scientific notation with an optional fraction and any leading zeros in the exponent is read with its exact value |
| Amounts.SmallFloatsRead | bitcoin_core_backend/src/core/validation.py:112-117 | "1e-08" is one satoshi and "1.5e-07" fifteen |
| LongAmounts.TruncatesExactlyWhen | bitcoin_core_backend/src/core/validation.py:117 | every amount overflows if and only if its digits, with a carry out of 28 nines, leave the exponent range; otherwise the result is the truncation of the exact value if and only if the digits beyond the 28th leave the satoshis alone |
| LongAmounts.NinesComeOutHigh | bitcoin_core_backend/src/core/validation.py:112-117 | "0." and 29 nines is read as one bitcoin |
| LongAmounts.HugeComesOutLow | bitcoin_core_backend/src/core/validation.py:112-117 | the integer 10^28 + 1 loses a whole bitcoin |
| RateLimit.QueueIsTheWindow | bitcoin_core_backend/src/api/app.py:35-44 | on non-decreasing call times the queue holds exactly the grants of the last window |
| RateLimit.LimiterIsExact | bitcoin_core_backend/src/api/app.py:35-44 | the limiter answers as the naive count over the full history |
| RateLimit.NoWindowOverflows | lightning_flask/src/core/security.py:243-251 | of the calls the limiter itself granted, at most `limit` lie in any closed window, wherever it starts |
| RateLimit.GrantsTheSame | bitcoin_core_backend/src/api/app.py:35-44 | the limiter grants exactly the calls the full-history count would grant |
| RateLimit.TracksOneMore | bitcoin_core_backend/src/api/app.py:35-44 | one more call on one key keeps every key's queue that of its own calls |
| RateLimit.FixedWindowLimiter.Allow | bitcoin_core_backend/src/api/app.py:35-44 | the popping loop: new queues, the answer, and its equality with the naive limiter |
| RateLimit.RateLimiter.Check | lightning_flask/src/core/security.py:243-251 | the same for the second limiter, with a 60 s window and a limit of at least one, so the two limiters answer alike |
| PaymentLookup.LookupPayment | lightning_flask/src/infra/lnd.py:121-152 | at most twenty requests, each led to by the page before, and the first match of a flat search over all fetched pages |
| PaymentLookup.NeverAnotherPayment | lightning_flask/src/infra/lnd.py:136-152 | a payment is reported only if the last page lists it under the hash asked for; otherwise no fetched page lists that hash |
| PaymentLookup.SearchesOn | lightning_flask/src/infra/lnd.py:121-152 | each request asks from where the page before ended, at most twenty times, and fewer without a match only after an answer that leads nowhere |

## Left out

- SQLite: one transaction or statement is one atomic, durable step; WAL, pragmas, migrations and file permissions are not modelled. `load_prepared_broadcast` reads twice in one connection and is one step here.
- The columns that hold JSON text hold JSON values here; the network column of both stores and the reports built from the tables (`summary`, `recent_transactions`, `snapshot`, `idempotency_state`) are not modelled.
- The event log (`append_event`): a failure there is a crash between two steps.
- SHA-256: fingerprints are the texts before hashing, so equal fingerprints mean equal texts. For the Lightning store the text is the method, the path and the raw body.
- A hash in a payment reply that is a list or an object stands for its JSON text, not Python's; it equals no payment hash either way. Base64 with padding that only some Python versions accept is refused.
- JSON numbers with a fraction or exponent, lone surrogates, and case mapping beyond ASCII.
- White space: `strip` on payment states removes ASCII blanks only, and on hashes nothing; the decimal parser's tolerance for surrounding blanks and underscores; also its special texts for infinities and not-a-number, and exponents too long for the decimal library.
- Python's limit of 4300 digits when an integer is read from or written as text.
- The RPC transport and error mapping: an unexpected exception of a call is one answer and ends as an internal error, whatever status it carried. Fee, size and PSBT contents are opaque; the two RPC calls of `_transaction_known` are one answer.
- `_unlock_psbt_inputs` as a request is modelled; what the node does with it is not.
- Validation and pre-checks before the claim (invoice decoding, limits, expiry, keys, authentication, scopes), HTTP routing and response headers: single-branch facts.
- The check that a payment hash was not used under another key is a separate step before the claim and is not an invariant of interleaved runs; the per-key result is the one proved.
- Invoice creation at most once: a server error leaves the row CLAIMED and a later retry may create again. Only the shared claim, replay and error handling are proved for that route.
- The Redis limiters depend on an external server. The in-memory limiters read a monotonic clock as real numbers, without rounding; the second one is not guarded by a lock and concurrent calls of it are not modelled.
- PaymentLookup.LookupPayment: does not say that a payment LND knows is found, because that depends on the server's paging; it relates the result to the pages fetched.
- RateLimit.LimiterIsExact: assumes non-decreasing call times, which the monotonic clock provides.
- Amounts.OddSymmetry: does not speak of texts with leading blanks, because the parser's tolerance for blanks is not modelled.
- Listed payments that are not JSON objects make the search raise; here every entry of a page is an object.
- BitcoinSendHandler.SendService.SendTransaction: does not say which outcome is reached, since other requests may take the claim over at any step; the outcome is the one at which its worker has arrived.
- LightningPayHandler.PaymentService.PayInvoice: says the same as `SendTransaction` about its worker; what an outcome means for the row and for LND is in `LightningPayTheorems`.
