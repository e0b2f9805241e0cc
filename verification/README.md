# Settlement kernel: model and proofs

A Dafny model of a settlement kernel for tokenised fund units, and proofs of what its
services promise over every run. The kernel settles subscriptions, transfers and
redemptions in two engines (one in memory, one double-entry and durable), settles
confidential transfers against a note tree, delivers events in order through an outbox
and through buffered institution callbacks, runs a leased prover queue, checkpoints its
audit trail, and limits request rates.

Each database transaction, and each call of the in-memory engine, is one atomic step of
a state machine. Workers are not: they may stop between any two steps, keep using rows
they read long ago, and share names. Clocks, signatures, product status, eligibility,
remote services and the proof verifier enter as inputs that may differ at every step.
Hashes are parameters; results that need them to tell inputs apart say on which inputs.

## Files

| file | about |
|---|---|
| `NoteTree.dfy`, `Binary.dfy` | the incremental note tree and the full tree it stands for |
| `ReferenceTree.dfy` | the layer-by-layer tree and its Merkle proofs |
| `FieldEncoding.dfy`, `CanonicalJson.dfy` | field texts, note bytes, canonical JSON |
| `ConfidentialRail.dfy`, `ConfidentialRailSafety.dfy`, `ConfidentialRailRoots.dfy`, `ConfidentialRailAcceptance.dfy`, `ConfidentialRailRecords.dfy`, `ConfidentialRailGovernance.dfy`, `ConfidentialRailPublications.dfy`, `ConfidentialRailReplies.dfy`, `ConfidentialRailService.dfy` | context governance, prepare, authorize, two-phase accept, root finality |
| `ProverQueue.dfy`, `ProverOutcomes.dfy`, `ProverRail.dfy` | the leased prover queue, alone and joined with the confidential rail |
| `Outbox.dfy`, `OutboxRecords.dfy`, `OutboxDispatcher.dfy`, `DispatchOutcomes.dfy` | the outbox, its inbox and its dispatcher |
| `CallbackStream.dfy`, `CallbackRecords.dfy` | buffered institution callbacks |
| `ControlPlane.dfy`, `ControlPlaneSafety.dfy`, `ControlPlaneHolders.dfy`, `ControlPlaneFlows.dfy`, `ControlPlaneRecords.dfy`, `ControlPlaneReviews.dfy`, `ControlPlaneRegistry.dfy`, `ControlPlaneRetryKeys.dfy`, `ControlPlaneService.dfy`, `Sums.dfy` | the in-memory engine |
| `Ledger.dfy`, `DurableWorkflow.dfy`, `DurableWorkflowSafety.dfy`, `DurableWorkflowRetries.dfy`, `DurableWorkflowLawful.dfy`, `DurableWorkflowDecisions.dfy`, `DurableWorkflowOpenings.dfy`, `DurableWorkflowReviews.dfy`, `DurableWorkflowService.dfy` | the durable workflow |
| `AuditCheckpoint.dfy`, `AuditCoverage.dfy`, `RateLimiter.dfy` | audit checkpoints, the rate limiter |

Protocols are written as a `Step` function over immutable states; a class beside it does
the same work with fields updated in place, and its methods are proved to take exactly
those steps. `Run` lemmas carry the invariants over every sequence of steps.

## Where the code does less than it says

- The tree admits a final size of 2^32 leaves and then refuses to compute its root
  (`NoteTree.AppendCapacity`).
- The arrays `[undefined]` and `[]` have the same canonical text
  (`CanonicalJson.CanonicalTextExactly`).
- The attempt limit of the prover queue fails under a worker name shared by several
  processes, although a name may be configured for several: exactly when a retry leaks
  (`ProverQueue.AttemptsBoundedIff`, `ProverQueue.SharedNameBreaksTheBound`); names used by
  one attempt at a time are safe (`ProverQueue.AttemptsBounded`).
- An outbox event whose workers keep dying is never dead-lettered
  (`Outbox.LeaseExpiryNeverDeadLetters`); its attempts stay within a limit exactly when no
  claim picks it at the limit (`Outbox.AttemptsWithinLimitIff`).
- A callback stream blocked by a lost authority stays blocked after the authority
  returns (`CallbackStream.EarlyCallbackBlocks`, `CallbackStream.DeliveryMovesIff`).
- A register failure simulated under a retry key makes a retried case close on a
  replacement that never settled, and nothing else does
  (`ControlPlaneRetryKeys.ReservedSimulationBreaksSettlement`,
  `ControlPlaneSafety.RetryClosesUnsettledIff`, `DurableWorkflowRetries.RetriedReplacements`).
- In memory a revoked and expired credential can still redeem
  (`ControlPlaneSafety.RevokedHoldersMayExit`); in the durable workflow an expired one
  cannot, revoked or not (`DurableWorkflowRetries.ExitIff`).

## Model

| member | source | states |
|---|---|---|
| NoteTree.AppendRefinesFullTree | src/security/poseidon-merkle.js:145-174 | From the state of any leaf sequence, appending any further leaves (total below 2^32) succeeds and gives exactly the state of the longer sequence: size, frontier levels and the root of the full zero-padded depth-32 tree. |
| NoteTree.BatchingIsIrrelevant | src/security/poseidon-merkle.js:145-174 | However a leaf sequence is split into non-empty batches, folding the appends ends in the same state as one append of everything. |
| NoteTree.AppendCapacity | src/security/poseidon-merkle.js:154-172 | Exactly when an append to a well-formed state succeeds: at least one leaf and a final size below 2^32. A final size of exactly 2^32 passes the capacity check and then fails as an invalid tree state. |
| NoteTree.FrontierReproducesRoot | src/security/poseidon-merkle.js:121-130 | Folding the stored frontier over the zero subtrees gives the root of the full tree over the leaves. |
| NoteTree.FoldIsTreeRoot | src/security/poseidon-merkle.js:124-129 | At every level, the fold so far is the root of the padded subtree over the leaves not covered by higher frontier levels. |
| NoteTree.CarryRefines | src/security/poseidon-merkle.js:157-167 | The binary carry of one leaf turns the frontier of n leaves into the frontier of n + 1: level i holds the complete 2^i block exactly when bit i of the size is set. |
| NoteTree.CarryShape | src/security/poseidon-merkle.js:158-165 | The carry keeps exactly the set bits of the incremented size occupied, and stops within 32 levels. |
| NoteTree.ParseSerialized | src/security/poseidon-merkle.js:102-118 | A frontier written by the append is accepted again and reads back to the same levels. |
| NoteTree.EmptyTreeRoot | src/security/poseidon-merkle.js:81-90 | The cached zero of level k is the root of an empty tree of depth k. |
| NoteTree.JoinHalves | src/security/poseidon-merkle.js:76-78 | The root of a padded tree is the node hash of the roots of its halves. |
| NoteTree.MerkleZeros | src/security/poseidon-merkle.js:81-90 | The loop produces the zero subtree root of every level up to 32. |
| NoteTree.EmptyMerkleTreeState | src/security/poseidon-merkle.js:132-138 | The empty state is the state of no leaves. |
| NoteTree.MerkleRootFromFrontier | src/security/poseidon-merkle.js:121-130 | The loop's result, or its refusal of an ill-formed state, is the fold the tree lemmas speak about. |
| NoteTree.PushLeaf | src/security/poseidon-merkle.js:157-167 | The in-place carry loop computes the frontier after one more leaf. |
| NoteTree.AppendMerkleLeaves | src/security/poseidon-merkle.js:145-174 | The whole operation with its checks in order: ill-formed state, root mismatch, no leaf, no capacity, non-canonical leaf, and the new state. |
| ReferenceTree.LayersReachTreeRoot | zk-candidate/scripts/reference_v2.js:161-176 | The layer-by-layer tree and the padded recursive tree have the same root, for every number of leaves that fits the depth. |
| ReferenceTree.ProofFoldsToRoot | zk-candidate/scripts/reference_v2.js:178-188 | For every tree and every index, folding the leaf (or the empty leaf beyond the end) with the proof's elements and directions gives the tree root. |
| ReferenceTree.ProofBindsLeaf | zk-candidate/scripts/reference_v2.js:178-188 | Whatever folds to the root at a position is the leaf there, with the genuine path, unless a pair hashed on its path and a different pair on the genuine path have the same parent. |
| ReferenceTree.RootBindsPaddedLeaves | zk-candidate/scripts/reference_v2.js:161-176 | Two leaf sequences of any lengths have the same root exactly when they agree after padding with the empty leaf, provided no pair hashed in one tree and a different pair hashed in the other have the same parent. |
| ReferenceTree.RootBindsLeaves | zk-candidate/scripts/reference_v2.js:161-176 | Under the same condition on the pairs actually hashed, sequences of equal length with equal roots are equal; sequences of different length may share a root, as [] and [0] do. |
| ReferenceTree.SeparationIsTheCondition | zk-candidate/scripts/reference_v2.js:161-176 | The condition on hashed pairs is needed: at height one, two trees that violate it have equal roots over different leaves. |
| ReferenceTree.BuildTree | zk-candidate/scripts/reference_v2.js:161-176 | The loop over layers returns every layer of the tree and its root. |
| ReferenceTree.ParentLayer | zk-candidate/scripts/reference_v2.js:168-172 | One pass over a layer pairs its nodes, padding the last with the level's zero, and replaces an empty layer by the next zero. |
| ReferenceTree.MerkleProof | zk-candidate/scripts/reference_v2.js:178-188 | The loop returns the sibling at every level and the index's bits as directions. |
| FieldEncoding.AcceptedExactlyPrintings | src/security/proof-adapter.js:28-35 | The accepted texts are exactly the decimal printings of the numbers below the field modulus. |
| FieldEncoding.TextEqualityIsNumericEquality | src/security/proof-adapter.js:28-35 | On accepted texts, string equality is equality of the numbers. |
| FieldEncoding.ParseOfPrint | src/security/proof-adapter.js:28-35 | Printing a number gives a canonical text that reads back to the number. |
| FieldEncoding.PrintOfParse | src/security/proof-adapter.js:28-35 | Reading a canonical text and printing it gives the same text. |
| FieldEncoding.MatchSignals | src/security/proof-adapter.js:84-101 | The comparing loop accepts exactly 13 canonical signals equal one by one to the authorized ones; otherwise it reports the package, an invalid signal, or the first mismatch. |
| FieldEncoding.FromToBytes | zk-candidate/scripts/reference_v2.js:44-51 | Reading back a little-endian encoding of fitting width gives the number. |
| FieldEncoding.LeBytes | zk-candidate/scripts/reference_v2.js:44-51 | The byte loop refuses negative and oversized values and otherwise encodes little-endian in the given width. |
| FieldEncoding.NoteMessage | zk-candidate/scripts/reference_v2.js:76-89 | In-range notes get the 99-byte layout; any field outside its range is refused. |
| FieldEncoding.NoteMessageInjective | zk-candidate/scripts/reference_v2.js:76-89 | Two in-range notes with the same 99 bytes are the same note. |
| FieldEncoding.PackInjective | zk-candidate/scripts/reference_v2.js:81-88 | Fixed-width little-endian concatenation of fitting fields determines every field. |
| CanonicalJson.CanonicalTextUnambiguous | src/storage/postgres-store.js:16-22 | For all JSON values without a lone undefined item, canonical texts are equal exactly when the values are equal with objects read as maps (strings escaped as in section 7 of RFC 8259). |
| CanonicalJson.CanonicalTextExactly | src/storage/postgres-store.js:16-22 | For all values, undefined included: equal texts mean equal values once every array [undefined] is read as []; those two arrays do collide. |
| CanonicalJson.TextDetermines | src/storage/postgres-store.js:16-22 | A value's text followed by a separator, a closing bracket or nothing determines both the value and what follows. |
| CanonicalJson.SameText | src/storage/postgres-store.js:18-20 | Key order never matters: equal maps have equal text. |
| CanonicalJson.QuoteUnambiguous | src/storage/postgres-store.js:19-21 | A quoted string followed by anything determines the string and what follows. |
| CanonicalJson.SortKeysSorted | src/storage/postgres-store.js:19 | Sorting by UTF-16 units yields an increasing list of the same keys. |
| RateLimiter.AtMostTwiceForSteadyClient | src/security/rate-limiter.js:12-39 | For every client none of whose own clock readings falls behind an earlier reading, over any call history with evictions and re-creation, every half-open interval one window long holds at most twice the limit of its accepted calls, whatever the readings at other clients' calls do below that. |
| RateLimiter.AtMostTwiceTheLimit | src/security/rate-limiter.js:12-39 | With a clock that never runs backwards that holds for every client, and the table stays within maxKeys. |
| RateLimiter.TableStaysBounded | src/security/rate-limiter.js:17-25 | Whatever the clock does, the table never holds more than maxKeys windows. |
| RateLimiter.RefusedIff | src/security/rate-limiter.js:12-39 | Exactly when a call of such a client is refused: its running window has the limit of accepted calls, and it is told the first whole second after it; or it is new and windows still running take up all the room. Every other call passes. |
| RateLimiter.RunKeeps | src/security/rate-limiter.js:12-39 | Every history keeps for such a client: its accepted calls lie in the window that counted them, its windows are a width apart, and none counts more than the limit. |
| RateLimiter.BackwardClockBreaksTheBound | src/security/rate-limiter.js:13-23 | If a client's own readings may run backwards the bound fails: five acceptances in one interval under a limit of two. |
| RateLimiter.FixedWindowRateLimiter.Consume | src/security/rate-limiter.js:12-32 | The call updates the table and answers as specified, including the eviction and the refusal of new clients. |
| RateLimiter.FixedWindowRateLimiter.Evict | src/security/rate-limiter.js:34-38 | Deleting while iterating removes exactly the windows that have run out. |
| AuditCheckpoint.EveryHistoryVerifies | src/storage/audit-checkpoint-service.js:52-132 | Every history of appended events and checkpoint attempts leaves a chain that verifies. |
| AuditCheckpoint.VerificationBindsRanges | src/storage/audit-checkpoint-service.js:89-132 | With the checkpoint rows unchanged, two event tables that both verify have the same event hashes in every checkpointed range, if SHA-256 tells apart the texts hashed for the two chains. |
| AuditCheckpoint.LatestDigestBindsHistory | src/storage/audit-checkpoint-service.js:34-39 | Two verifying chains with the same latest digest agree on every boundary, count, digest and covered event hash, if SHA-256 tells apart the texts hashed for the two chains. |
| AuditCheckpoint.DigestInputInjective | src/storage/audit-checkpoint-service.js:34-39 | The hashed text determines the previous digest, the boundary, the count and the list of event hashes. |
| AuditCheckpoint.RangeRestart | src/storage/audit-checkpoint-service.js:170-185 | Restarting a scan one past the last sequence seen yields exactly the rest of the scan. |
| AuditCheckpoint.EventRange | src/storage/audit-checkpoint-service.js:168-186 | The paging loop terminates and returns the same list and boundary as one unpaged scan. |
| AuditCheckpoint.CreateCheckpoint | src/storage/audit-checkpoint-service.js:52-86 | Folds every event above the last boundary into the next checkpoint, or reports that there is none. |
| AuditCheckpoint.VerifyCheckpoints | src/storage/audit-checkpoint-service.js:89-132 | Valid exactly when every checkpoint reproduces; otherwise the reported checkpoint is one that does not, all before it do, and the reason is the first of link, count and digest that is wrong. |
| AuditCoverage.EveryEventIsCovered | src/storage/audit-checkpoint-service.js:52-86 | In every history the checkpoints are numbered from one, reach further each time, and the chain's count is exactly the number of the tenant's events up to its boundary: none is left out. |
| AuditCoverage.CheckpointOutcome | src/storage/audit-checkpoint-service.js:52-86 | An attempt fails exactly when the tenant has no event above the last boundary; otherwise the next checkpoint reaches the tenant's last event, links to the last digest and counts every event since. |
| Outbox.AggregateOrder | src/storage/postgres-store.js:415-513 | Under any interleaving with crashes, stale and equally named workers and replays, an aggregate's events are a published prefix, at most one event in flight, failed or dead, then only pending ones; the handler ran once for each event of the prefix in enqueue order, and for at most the next one. |
| Outbox.StepKeeps | src/storage/postgres-store.js:405-600 | Every step keeps: events past pending have only published predecessors, holders of claims too, and handled events are handled once, in order. |
| Outbox.NoFalseAlarms | src/storage/postgres-store.js:485-513 | No run makes the consumer report a reused identifier or a tampered payload, and an approval by a second person always finds its event dead. |
| Outbox.ReplaysAreApproved | src/storage/postgres-store.js:540-600 | An event's replay count is the number of executed requests for it, each decided by someone other than its maker. |
| Outbox.DeadUntilReplayed | src/storage/postgres-store.js:464-600 | A published event never changes again; a dead one changes only through an approval by a second person, back to pending with no attempts, available at once and with one more replay. |
| Outbox.AttemptsWithinLimitIff | src/storage/postgres-store.js:415-446 | Over any run, an event's attempts stay within a limit in every state exactly when no claim ever picks its row while it stands at the limit. |
| Outbox.DeadByItsMark | src/storage/postgres-store.js:464-483 | In every run a dead event was killed by one accepted failure mark of a worker that still held it, from a claim whose own attempts had reached the given maximum, and stands as that mark left it. |
| Outbox.OnlyTwoLeaks | src/storage/postgres-store.js:415-483 | With one maximum for all failure marks, attempts stay within it through every run in which no claim takes the row at the limit after a lapsed lease and no stale claim records a failure there. |
| Outbox.LeaseExpiryNeverDeadLetters | src/storage/postgres-store.js:415-446 | The first of those leaks is real for every number of crashes: a worker that dies while holding the lease is never counted as failed, attempts grow without end and no dead letter appears. |
| Outbox.PublishedForever | src/storage/postgres-store.js:448-462 | A published event is the same in every later state of any run. |
| OutboxRecords.LeaseHoldsThroughout | src/storage/postgres-store.js:415-483 | Over any continuation a claimed event is untouched until a claim reads its clock at or after the end of its lease or its own worker marks it inside the lease; no crash, other worker, replay or enqueue takes it earlier. |
| OutboxRecords.ClaimsExactly | src/storage/postgres-store.js:418-437 | A claim takes exactly the events that are due or lapsed, in scope, behind only published ones of their aggregate, not locked, and with fewer than the limit of such before them. |
| OutboxRecords.RowsMove | src/storage/postgres-store.js:415-600 | Every way an event moves, in any state and pinned field by field: claimed when it may be, until the lease time from that clock has passed; published, failed and put off by the delay, or ended at the maximum, by its worker inside the lease; or replayed by a second person as of that clock. |
| OutboxRecords.ConsumeOutcome | src/storage/postgres-store.js:485-513 | The consumer runs its handler exactly for an event not seen before whose text has its digest; every other answer, each exactly when it is due, changes nothing. |
| OutboxRecords.DeliveryOutcome | src/storage/postgres-store.js:485-513 | A worker knows its publish call returned exactly when it saw it succeed or saw that the event had been handled before. |
| OutboxRecords.RequestOutcome | src/storage/postgres-store.js:515-538 | A replay request opens exactly for a dead event of its tenant that has none undecided. |
| OutboxRecords.RowsAreEnqueues | src/storage/postgres-store.js:405-413 | In every run the rows are the enqueue calls, in order and with their own text and digest, available when they said while they wait for their first claim. |
| OutboxRecords.RequestsAreCalls | src/storage/postgres-store.js:515-600 | In every run each replay request was made by the maker it names, for an event then dead, and each decision by the checker it names, someone else, while it was undecided. |
| Outbox.OutboxStore.SelectCandidates | src/storage/postgres-store.js:425-437 | The scan returns the first unlocked candidates in enqueue order, up to the limit. |
| Outbox.OutboxStore.ClaimOutboxBatch | src/storage/postgres-store.js:415-446 | Claims every selected event for the worker, with one more attempt and a new lease, and touches no other row. |
| Outbox.OutboxStore.ConsumeOutboxOnce | src/storage/postgres-store.js:485-513 | Runs the handler and records the event, or reports a duplicate, a conflict or a tampered payload. |
| Outbox.OutboxStore.MarkOutboxPublished | src/storage/postgres-store.js:448-462 | Publishes only a row this worker name holds under an unexpired lease. |
| Outbox.OutboxStore.MarkOutboxFailed | src/storage/postgres-store.js:464-483 | Fails or dead-letters only such a row; dead is decided from the attempts of the claimed copy. |
| Outbox.OutboxStore.ProposeDeadLetterReplay | src/storage/postgres-store.js:515-538 | Opens a request for a dead event of the tenant, one pending request at a time. |
| Outbox.OutboxStore.DecideDeadLetterReplay | src/storage/postgres-store.js:540-600 | A second person rejects the request or returns the dead event to pending, available from that moment. |
| OutboxDispatcher.BackOff | src/storage/outbox-dispatcher.js:5-10 | Retry delays start at the base, double up to the ceiling, never exceed it and stop growing after 31 attempts. |
| OutboxDispatcher.RestTallies | src/storage/outbox-dispatcher.js:30-54 | A finished batch's counters add up to the events claimed and equal the rows that became published, failed and dead. |
| OutboxDispatcher.DispatchOne | src/storage/outbox-dispatcher.js:36-52 | One event's publish, mark and error handling, including a failure whose marking fails too. |
| OutboxDispatcher.DispatchBatch | src/storage/outbox-dispatcher.js:30-54 | The loop claims and processes every event, keeps the outbox invariant, and returns counters that match the tables; an error while marking a failure ends it. |
| DispatchOutcomes.TurnOutcome | src/storage/outbox-dispatcher.js:36-52 | A turn publishes its event exactly when the worker saw the delivery succeed and still held the lease; otherwise, holding it, it fails the event, ends it at the maximum or puts it off by the wait for its attempts; without the lease the batch ends and the row is as it was. |
| DispatchOutcomes.DelayIsWait | src/storage/outbox-dispatcher.js:5-10 | The delay is the base, doubled with each attempt up to the thirty-first and capped throughout. |
| DispatchOutcomes.RestFinishes | src/storage/outbox-dispatcher.js:30-54 | A batch that comes to its end leaves none of its events claimed, and touches no other. |
| DispatchOutcomes.ClaimsApart | src/storage/outbox-dispatcher.js:30-36 | A claim hands each event to its worker once. |
| CallbackStream.Confluence | src/storage/institution-callback-service.js:191-277 | Two deliveries of the same acceptable envelopes, in any orders and with any duplicates, end with the same receipts, positions, applications and effects of every stream. |
| CallbackStream.AppliesLongestRun | src/storage/institution-callback-service.js:236-277 | What is applied is exactly the longest contiguous run of sequences from one on, in order and once each; the rest stays buffered. |
| CallbackStream.StreamsAreOrdered | src/storage/institution-callback-service.js:203-303 | In every reachable state a stream's effects are sequences 1, 2, 3, ... up to its position, and an applied callback has an incident exactly when it mismatched or was not confirmed. |
| CallbackStream.LostAuthorityIsFinal | src/storage/institution-callback-service.js:249-263 | A buffered callback whose authority is gone whenever anything is delivered is never applied and the stream ends at it at the latest; if it ends there, neither ever moves again, even when authority returns. |
| CallbackStream.DeliveryMovesIff | src/storage/institution-callback-service.js:209-274 | In a reachable state an acceptable new callback at the stream's position moves the stream exactly when no receipt waits at that position. |
| CallbackStream.EarlyCallbackBlocks | src/storage/institution-callback-service.js:229-265 | The blocked state is reached: second callback first, then the first one when the second's authority is gone; the stream stays at its second position with an incident through every later run. |
| CallbackStream.BlockedForever | src/storage/institution-callback-service.js:214-263 | A stream whose next receipt is waiting at its position never moves again, whatever is delivered and whoever regains authority. |
| CallbackStream.DrainAuthorised | src/storage/institution-callback-service.js:241-269 | Every effect the drain adds was authorised in the world of that delivery. |
| CallbackStream.DrainKeeps | src/storage/institution-callback-service.js:241-269 | The drain ends at a gap or with an incident on the receipt that blocks it, and touches no receipt and no other stream. |
| CallbackStream.ConfirmedByItsDelivery | src/storage/institution-callback-service.js:249-435 | In every run each applied callback was authorised in the world of the one delivery that applied it, however long it was buffered, and has no incident exactly when it confirmed and, custody aside, agreed with its transaction as that world showed it. |
| CallbackRecords.EnteredGenuine | src/storage/institution-callback-service.js:159-236 | In every run each stored callback was entered once, by the delivery of that very envelope into a new place, well-formed, authorised, signed and within the rules in the world of that delivery. |
| CallbackRecords.DeliveryEnters | src/storage/institution-callback-service.js:159-236 | A delivery enters exactly a genuine envelope in a new place, as it is; any other leaves every table as it was. |
| CallbackRecords.ForgeryRefused | src/storage/institution-callback-service.js:160-189 | A delivery that fails the envelope check, the authority, the signature or the rules is refused and changes nothing; without authority or signature it is answered as not authenticated. |
| CallbackRecords.GenuineOutcome | src/storage/institution-callback-service.js:191-276 | The reply to a genuine delivery in reachable states, both ways: duplicate or conflict of identifier, conflict of place, buffered with the position it waits for, or applied with those that followed and the reason that stopped them. |
| CallbackRecords.IncidentsTellWhy | src/storage/institution-callback-service.js:254-264 | In every run each incident was opened by one delivery and tells, for good, that world's reason against the blocking receipt, or the applied callback's mismatch or outcome, critical exactly for a permanent failure. |
| CallbackRecords.ConfirmationsTell | src/storage/institution-callback-service.js:385-440 | In every run each applied callback keeps the comparison of the one delivery that applied it: matched exactly when the transaction was its tenant's and product's, its asset or currency right and every committed amount opened, otherwise the first difference by name. |
| CallbackStream.InstitutionCallbackService.Receive | src/storage/institution-callback-service.js:159-277 | The call checks the envelope, authenticates it, checks its business rules, deduplicates and admits it, keeping every stream invariant. |
| CallbackStream.InstitutionCallbackService.ApplyAndDrain | src/storage/institution-callback-service.js:239-274 | The loop that advances the next sequence applies what follows, stops at a lost authority, and writes the position once at the end. |
| ProverQueue.QueueSafety | src/storage/prover-job-service.js:119-256 | In every interleaving with crashes and stale workers a lease exists exactly in SUBMITTING and VERIFYING, and a verified job names its transaction's one receipt, whoever obtained it; no two jobs share one. |
| ProverRail.VerifiedJobsHoldRailReceipts | src/storage/prover-job-service.js:119-256 | In every joint run of queue and rail, whoever obtained the acceptance and however workers crash or lag, a verified job's receipt is the rail's own for its transaction, accepted with exactly the authorized signals, and no two jobs share one. |
| ProverRail.GateIsTheRail | src/storage/prover-job-service.js:214-226 | The gate call a worker makes answers as the rail's second phase does, acceptance for acceptance, and leaves queue and rail with one table of receipts. |
| ProverRail.StepKeeps | src/storage/prover-job-service.js:119-256 | Every call of the rail and every step of the queue keeps both invariants and that one table. |
| ProverQueue.StepMovesJobs | src/storage/prover-job-service.js:172-256 | Final jobs never change, other moves are those the table allows, and each recorded failure uses up exactly one attempt. |
| ProverQueue.ClaimMovesJobs | src/storage/prover-job-service.js:121-155 | A claim counts each expired lease as one attempt and leases at most one job that is not final. |
| ProverQueue.AttemptsBounded | src/storage/prover-job-service.js:119-256 | If a worker name is used by one attempt at a time, attempts never exceed eight and a job that is not final has fewer. |
| ProverQueue.AttemptsBoundedIff | src/storage/prover-job-service.js:119-256 | Whatever the worker names, attempts stay bounded in every state of a run exactly when no retry in it leaks: under a name that still leases the row, with the row at its last attempt and the claimed copy not. |
| ProverQueue.StepKeepsBoundIff | src/storage/prover-job-service.js:119-256 | In reachable states that leaking retry is the one step of any kind that takes the queue out of its bound. |
| ProverQueue.FinalForever | src/storage/prover-job-service.js:119-256 | A verified or failed job is the same in every later state of any run. |
| ProverOutcomes.FailedByOneCall | src/storage/prover-job-service.js:119-256 | In every run a failed job was failed by one call of three kinds, and stands as it left it: a remote failure reported by its lease holder, a failure mark whose claim was at its last attempt, or a lease that ran out at the last attempt. |
| ProverOutcomes.FailsIff | src/storage/prover-job-service.js:119-256 | In reachable states those are exactly the steps that fail a job. |
| ProverOutcomes.PollOutcome | src/storage/prover-job-service.js:194-203 | A poll that finds the proof still running puts the job back as REMOTE_PENDING, the same remote job with the same attempts and no lease, due again after the poll interval. |
| ProverOutcomes.JobsMove | src/storage/prover-job-service.js:119-256 | Every way a job moves in reachable states, pinned field by field: a claim, which counts lapsed leases and may lease the job for its time, and the five reports of the worker that holds it, of which a worker without the lease makes none. |
| ProverOutcomes.ClaimRefusedIff | src/storage/prover-job-service.js:126-134 | A claim is refused exactly when counting the lapsed leases would take a counter past the table's ceiling, and then changes nothing. |
| ProverOutcomes.PresentationOutcome | src/storage/prover-job-service.js:214-229 | Presenting a proof touches no job; the worker learns the transaction's one receipt exactly when the gate takes the proof or the transaction already has one. |
| ProverOutcomes.RequestOutcome | src/storage/prover-job-service.js:56-117 | A request queues a new job exactly for an authorized transaction that has neither a job nor a receipt. |
| ProverOutcomes.ClaimOutcome | src/storage/prover-job-service.js:121-155 | A claim leases one due job to the worker until the lease time has passed, to submit it or, once it has a remote job, to poll it; other jobs change only if their lease had run out. |
| ProverOutcomes.ClaimTakesFirstDue | src/storage/prover-job-service.js:121-155 | A claim finds nothing exactly when no job is due, and otherwise takes the one due first, the older row on a tie. |
| ProverQueue.SharedNameBreaksTheBound | src/storage/prover-job-service.js:243-256 | Two processes under one name can leave a job retryable after eight failures. |
| ProverQueue.ProverJobService.ClaimJob | src/storage/prover-job-service.js:121-155 | Expires leases, leases the eligible job due first, and remembers the claimed row. |
| ProverQueue.ProverJobService.Present | src/storage/prover-job-service.js:214-226 | Hands the proof to the gate, or takes the receipt an earlier worker obtained. |
| ProverQueue.ProverJobService.RetryJob | src/storage/prover-job-service.js:243-256 | Counts a failure on a job this worker name still leases; terminal is decided from the claimed copy. |
| ProverQueue.ProverJobService.RunOnce | src/storage/prover-job-service.js:119-170 | Claim, attempt and error handling in one call, keeping the queue invariant. |
| ConfidentialRailSafety.NoDoubleSpend | src/storage/zk-settlement-gate.js:194-311 | However two-phase acceptances interleave, a nullifier of a context belongs to at most one accepted proof; it is recorded exactly when one uses it, and that transfer is past PROOF_PENDING. |
| ConfidentialRailSafety.AcceptedAsAuthorized | src/storage/zk-settlement-gate.js:168-193 | An accepted proof has exactly two outputs, and its 13 signals are the authorized ones, whose fee, recipient and relayer are those frozen at preparation. |
| ConfidentialRailSafety.TermsAreFrozen | src/storage/confidential-transfer-service.js:185-195 | Instruction, authorization and receipt of a transfer are written once: they are the same in every later state of any run. |
| ConfidentialRailSafety.VerifierSlots | src/storage/zk-settlement-gate.js:179-187 | Running proof checks are counted exactly and never exceed the configured bound. |
| ConfidentialRailSafety.SettlementKeeps | src/storage/zk-settlement-gate.js:41-591 | Every call of every service, in any world, keeps nullifiers, outputs, receipts, authorizations and checks consistent. |
| ConfidentialRailRecords.AcceptedProofHeld | src/storage/zk-settlement-gate.js:153-377 | In every run each receipt goes back to three calls in this order: a check of that transfer begun by someone who may, the verifier's finding that the proof holds for exactly the receipt's signals, and the second phase that wrote it. |
| ConfidentialRailRecords.CheckEndsExactly | src/security/proof-adapter.js:84-104 | In reachable states the end of a running check passes exactly for the authorized signals with a proof that holds, and is otherwise answered by the first thing wrong: count, text, difference, or the proof itself. |
| ConfidentialRailRecords.AuthorizedLawfully | src/storage/zk-settlement-gate.js:41-151 | In every run each authorization was made by one call of the system or the originating institution, on the prepared terms, before they expired, for a standing context of the active product and a root then accepted. |
| ConfidentialRailRecords.PreparedLawfully | src/storage/confidential-transfer-service.js:41-226 | In every run each transfer was prepared by one call whose terms it has kept: due within a day, in field texts, a 64-bit fee, a real recipient, eligible parties and a standing context. |
| ConfidentialRailRecords.TransfersMove | src/storage/zk-settlement-gate.js:41-591 | Every way a transfer comes to be and moves, row by row. |
| ConfidentialRailGovernance.ContextsAreGoverned | src/storage/zk-governance-service.js:37-130 | In every run each context goes back to one person's proposal of exactly it and another's later approval, both while it was available. |
| ConfidentialRailGovernance.FinalizedByTwoCalls | src/storage/zk-settlement-gate.js:379-591 | In every run each applied finalization goes back to one person's proposal of exactly that root and another's later decision, both on an active product. |
| ConfidentialRailGovernance.ReplacedRootsLastAnHour | src/storage/zk-settlement-gate.js:548-570 | In every run a CURRENT root has no end, and any other was replaced by one finalization and ends exactly one hour after that call's clock. |
| ConfidentialRailGovernance.AcceptedWithinTheHour | src/storage/zk-settlement-gate.js:119-126 | So long a root that is not revoked is accepted: a CURRENT one always, a replaced one within its hour. |
| ConfidentialRailPublications.PublicationIff | src/storage/zk-settlement-gate.js:379-451 | In reachable states a proposal of a root is taken exactly when the transaction waits for it, no other proposal of it stands, and root and size are those of the full tree over the finalized outputs with its two added; it is then on file against the tree as it is. |
| ConfidentialRailPublications.DecisionIff | src/storage/zk-settlement-gate.js:476-591 | A decision applies a pending proposal exactly when it is someone else's, the tree is still the one it was made against, root and size extend it by the two outputs and the context never had that root; it cancels it exactly when that tree has moved on. |
| ConfidentialRailPublications.ProposalsExtendTheTree | src/storage/zk-settlement-gate.js:379-451 | In every run each proposal on file was put there by one call naming exactly the root and size of the full tree, as it then was, with its transaction's two outputs added. |
| ConfidentialRailReplies.PrepareIff | src/storage/confidential-transfer-service.js:41-226 | A lawful instruction under a new key is recorded; under a used key it is answered with the transfer there exactly when it asks for that very transfer on the same terms; nothing else is accepted or written. |
| ConfidentialRailReplies.AuthorizeIff | src/storage/zk-settlement-gate.js:41-151 | In reachable states an authorization is written exactly when the law allows it. |
| ConfidentialRailReplies.BeginIff | src/storage/zk-settlement-gate.js:153-187 | A check begins exactly for an authorized transfer, not yet accepted, of an active product, by someone who may, while a slot is free. |
| ConfidentialRailReplies.ContextProposalIff | src/storage/zk-governance-service.js:37-65 | A context is proposed exactly when the product may have it and has no other proposal waiting. |
| ConfidentialRailReplies.ContextDecisionIff | src/storage/zk-governance-service.js:67-130 | A pending context proposal is decided exactly by someone else, and approved exactly while it is available and its version unused; the context then stands with the empty tree as its CURRENT root. |
| ConfidentialRailAcceptance.AuthorizedOnRealTree | src/storage/zk-settlement-gate.js:72-126 | In every run, what was authorized names a context of the transfer's own product and asset and spends from a tree that context really had: the tree over the outputs of its first so many finalized transactions, although roots may since be replaced or revoked. |
| ConfidentialRailAcceptance.SecondPhaseIff | src/storage/zk-settlement-gate.js:194-311 | In reachable states a passed check is accepted exactly when its transfer has no receipt yet, the world still allows it, and no accepted transfer has its nullifiers or outputs; the other checks of the second phase cannot fail. |
| ConfidentialRailAcceptance.SecondPhaseFailures | src/storage/zk-settlement-gate.js:194-311 | In reachable states the reply of a second phase is exactly determined by what happened since the first: an earlier acceptance, the product, the one context its inputs name, the deadline, eligibility, the circuit, the recorded root, a taken receipt identifier, and nullifiers or outputs of accepted transfers; the first that applies is the reply, and no reply ever says that the transfer is unknown, unauthorized or off its terms. |
| ConfidentialRailAcceptance.FirstAcceptanceWins | src/storage/zk-settlement-gate.js:194-311 | Once a transfer is accepted, no later second phase of it, or of any transfer sharing one of its nullifiers in its context, succeeds or writes anything, whatever ran between. |
| ConfidentialRailAcceptance.AuthorizedOnce | src/storage/zk-settlement-gate.js:127-149 | After an authorization no later one of the same transfer succeeds, in any continuation. |
| ConfidentialRailAcceptance.AnchoredKeeps | src/storage/zk-settlement-gate.js:41-591 | Every call keeps every root row a root its context's tree had, and every authorization on a recorded root and a context of its product. |
| ConfidentialRailRoots.OneRootPerContext | src/storage/zk-settlement-gate.js:476-625 | In every reachable state each context has exactly one CURRENT root; its row is the full tree over the two outputs of each finalized transaction in finalization order, its frontier reproduces it, and its size is twice the number finalized. |
| ConfidentialRailRoots.NoStaleFinalization | src/storage/zk-settlement-gate.js:500-545 | Every finalization was proposed against the root current when it was applied, extends it by exactly its own two outputs, was decided by a second person, and happens once per transaction. |
| ConfidentialRailRoots.ContextsAreNotShared | src/storage/zk-governance-service.js:102-116 | However proposals, approvals and retirements interleave, a context identifier is used once, a product has at most one unretired context, and one context per circuit version. |
| ConfidentialRailRoots.ExtensionIsTheTree | src/storage/zk-settlement-gate.js:593-625 | A verified extension starts from the context's only CURRENT row and is the tree with the two outputs appended. |
| ConfidentialRailRoots.RootsKeep | src/storage/zk-settlement-gate.js:379-591 | Every call keeps one root chain per context, settled transactions once each in the log, and one live proposal per transaction. |
| ConfidentialRailService.ZkSettlementGate.ProposeContext | src/storage/zk-governance-service.js:37-65 | Proposes an available, well-formed context, one pending proposal per product. |
| ConfidentialRailService.ZkSettlementGate.DecideContext | src/storage/zk-governance-service.js:67-130 | A second person approves after availability is checked again; the context and its empty tree are created together. |
| ConfidentialRailService.ZkSettlementGate.Prepare | src/storage/confidential-transfer-service.js:41-226 | Freezes fee, recipient, relayer and parties of a new transfer, or finds the one the key already names. |
| ConfidentialRailService.ZkSettlementGate.Authorize | src/storage/zk-settlement-gate.js:41-151 | Binds the inputs once, after the checks in the program's order. |
| ConfidentialRailService.ZkSettlementGate.BeginAccept | src/storage/zk-settlement-gate.js:153-184 | First phase: snapshots the authorization and takes a verifier slot, or reports why not. |
| ConfidentialRailService.ZkSettlementGate.EndCheck | src/storage/zk-settlement-gate.js:184-193 | The slot is given back whatever the verifier said; only matching signals with a holding proof pass. |
| ConfidentialRailService.ZkSettlementGate.CompleteAccept | src/storage/zk-settlement-gate.js:194-377 | Second phase: every check again, then receipt, nullifiers, outputs and state together, or nothing. |
| ConfidentialRailService.ZkSettlementGate.WriteReceipt | src/storage/zk-settlement-gate.js:281-328 | The insert loops detect a spent nullifier or a used output before anything is kept. |
| ConfidentialRailService.ZkSettlementGate.Extend | src/storage/zk-settlement-gate.js:593-625 | Recomputes the CURRENT tree from its frontier and appends a receipt's two outputs. |
| ConfidentialRailService.ZkSettlementGate.ProposeFinalization | src/storage/zk-settlement-gate.js:379-451 | Accepts only the root and size the server computes itself, one live proposal per transaction. |
| ConfidentialRailService.ZkSettlementGate.CancelFinalization | src/storage/zk-settlement-gate.js:453-474 | Cancels the pending proposal, if there is one. |
| ConfidentialRailService.ZkSettlementGate.Finalize | src/storage/zk-settlement-gate.js:476-591 | A second person applies the proposal; one made against an older base is cancelled instead. |
| ControlPlaneSafety.Conservation | src/control-plane.js:229-405 | After any sequence of calls, with issuer, buyer and seller sharing accounts or not: each currency's cash is what was credited, assets equal the register account by account, nothing is negative, and a product's units are settled subscriptions minus redemptions. |
| ControlPlaneSafety.FailureKeepsBalances | src/control-plane.js:229-646 | A call that throws leaves cash, assets and register as they were. |
| ControlPlaneSafety.LimitsAndPrices | src/control-plane.js:303-361 | Every positive holding is within the limit of a registered credential of that investor and product; every settled price is within its product's band around the recorded NAV, and subscriptions and redemptions are exactly at it. |
| ControlPlaneSafety.SettledWasLawful | src/control-plane.js:235-405 | Whether made directly or by an approved retry, every settled transaction of every run was lawful at the one call that created it: product active, the NAV then current, the parties eligible at the balances and clock of that call, the price in the band, and paid for. |
| ControlPlaneSafety.RevokedHoldersMayExit | src/control-plane.js:364-405 | A redemption with enough units, a current NAV and issuer cash succeeds with a revoked credential as a restricted exit, with a valid one as a standard exit, and otherwise fails with nothing changed. |
| ControlPlaneSafety.RevocationNeverTraps | src/control-plane.js:923-960 | Revoking any credential takes no redemption away: what could be redeemed before still can, for the same cash. |
| ControlPlaneHolders.MadeWithStandingCredentials | src/control-plane.js:229-646 | In every run each transaction, settled or not, direct or retried, was created by one call whose recorded request, which it carries, names credentials that let its parties do this at that call: for subscriptions and transfers unrevoked, in their window and within their limit. |
| ControlPlaneHolders.SettlesExactlyWhenLawful | src/control-plane.js:229-524 | In reachable states a new request under an unused key settles exactly when it is lawful, and a register failure is simulated for exactly the transfers that would settle. |
| ControlPlaneFlows.AccountsAreFlows | src/control-plane.js:229-405 | After any sequence of calls every cash account holds what was credited to it plus what each settled transaction brought it, the seller the price, the issuer the fee, and every holding, in ledger and register, is the sum of its settled movements. |
| ControlPlaneFlows.CreditsAreCalls | src/control-plane.js:215-227 | The credits on record for an account are exactly the credit calls of the run. |
| ControlPlaneRecords.SettledForever | src/control-plane.js:229-646 | A settled transaction is the same in every later state of any run. |
| ControlPlaneRecords.ReceiptsTellTheTransaction | src/control-plane.js:229-524 | In every run each stored result tells the state, time, mode and stages its transaction was created with, however it was reviewed since. |
| ControlPlaneRecords.ResolvedByTwoCalls | src/control-plane.js:526-646 | In every run each resolved case goes back to the maker's proposal, whose kind decided how it ended, and the later decision of a different person, each under the name it was made with. |
| ControlPlaneRecords.CaseOpened | src/control-plane.js:407-524 | Every case stands for one simulated register failure, whose request a retry repeats. |
| ControlPlaneReviews.ProposalIff | src/control-plane.js:526-559 | A resolution is proposed exactly on an open case by a named maker, with a replacement if it is a retry. |
| ControlPlaneReviews.DecisionIff | src/control-plane.js:561-646 | A decision is taken exactly by a named person other than the maker; a cancellation then closes the case, a retry is accepted exactly when the case ends as retried and otherwise leaves it open again. |
| ControlPlaneRegistry.SetUpMoves | src/control-plane.js:104-233 | Products, credentials, evidence and restrictions stay, and come or move by their own lawful call only. |
| ControlPlaneRegistry.SetUpIff | src/control-plane.js:104-233 | A set-up call is accepted, and done, exactly when it is lawful; refused, it changes nothing. |
| ControlPlaneRegistry.CredentialRegistered | src/control-plane.js:160-183 | In every run each credential is as the one call registered it, signed, by a permitted issuer, for a known product, with a real window and limit. |
| ControlPlaneRegistry.RestrictedIffRevoked | src/control-plane.js:185-194 | In every run a credential is restricted exactly when some call revoked it while on record, for good. |
| ControlPlaneRegistry.NavSubmitted | src/control-plane.js:196-227 | In every run each NAV is as one call submitted it, signed, from a permitted source, positive and under a new identifier. |
| ControlPlaneRegistry.ActiveSinceActivated | src/control-plane.js:141-158 | In every run an active product was switched on by a permitted call and has not been paused since. |
| ControlPlaneSafety.ReplayReturnsTheFirstResult | src/control-plane.js:1088-1099 | Repeating a successful call under its key returns the stored result and changes nothing, after any further calls. |
| ControlPlaneSafety.ExceptionLifecycle | src/control-plane.js:407-646 | Case status and transaction state correspond, exactly the unsettled transactions have a case, and every resolution has a checker other than its maker. |
| ControlPlaneSafety.RetriedReplacements | src/control-plane.js:575-646 | In every run retried cases have pairwise distinct replacements with the stored economics, and a replacement is settled exactly when no register failure was first simulated under the case's retry key for that same request. |
| ControlPlaneSafety.RetryClosesUnsettledIff | src/control-plane.js:584-622 | From any reachable state, approving a retry closes the case on an unsettled replacement exactly when, before the call, the retry key held an unsettled result of that same request, which is when that failure had been simulated under the key. |
| ControlPlaneSafety.RetriedReplacementsSettle | src/control-plane.js:584-622 | In particular, if nobody simulates a failure under a retry key, every retried case's replacement is settled. |
| ControlPlaneRetryKeys.ReservedSimulationBreaksSettlement | src/control-plane.js:407-646 | A concrete run in which a failure simulated under a retry key leaves a retried case with an unsettled replacement. |
| ControlPlaneSafety.EvidenceIsImmutable | src/control-plane.js:876-917 | Once a transaction exists, the hashed core of its evidence package is the same after any further calls. |
| ControlPlaneSafety.ReconciliationMatches | src/control-plane.js:648-682 | Reconciliation never finds a mismatch, and asks for attention exactly while a case of the product is unresolved. |
| ControlPlaneSafety.StepKeeps | src/control-plane.js:229-646 | Every call keeps money, units, holdings, books and the exception workflow consistent. |
| ControlPlaneSafety.Splits | src/control-plane.js:334-336 | Paying a price and a fee conserves the currency's total and keeps balances non-negative, whichever of the three accounts coincide. |
| ControlPlaneSafety.SettledPrice | src/control-plane.js:316-325 | The accepted unit price deviation carries over to the whole amount without rounding. |
| ControlPlaneSafety.RetryKeyInjective | src/control-plane.js:584-592 | Equal retry keys for the same replacement come from the same case. |
| ControlPlaneService.Engine.Subscribe | src/control-plane.js:235-276 | Writes cash, cash record, ledger, register and transaction one after another, or nothing. |
| ControlPlaneService.Engine.Transfer | src/control-plane.js:278-362 | The same for a transfer; no ledger entry can become negative half-way. |
| ControlPlaneService.Engine.Redeem | src/control-plane.js:364-405 | The same for a redemption, restricted exits included. |
| ControlPlaneService.Engine.SimulateRegisterFailure | src/control-plane.js:407-524 | Passes every check of a transfer, releases the cash and opens a case without moving a balance. |
| ControlPlaneService.Engine.ProposeExceptionResolution | src/control-plane.js:526-559 | Moves an open case and its transaction to pending approval. |
| ControlPlaneService.Engine.ApproveExceptionResolution | src/control-plane.js:561-646 | Cancels, or retries through a transfer under the retry key; a refused retry reopens the case. |
| ControlPlaneService.Engine.CurrentEvidence | src/control-plane.js:962-973 | The scan finds the latest effective NAV, the first submitted among equals, and then checks its expiry. |
| ControlPlaneService.Engine.TotalForProduct | src/control-plane.js:1116-1122 | The loop sums a ledger's entries of one product. |
| ControlPlaneService.Engine.CountSettled | src/control-plane.js:652-657 | Counts settled transactions; the counts agree exactly when every one has confirmed cash. |
| ControlPlaneService.Engine.Reconcile | src/control-plane.js:648-682 | Derives the status from two totals, two counts and the open cases. |
| ControlPlaneService.Engine.TransactionEvidencePackage | src/control-plane.js:876-917 | The filter loop builds the core from the history at creation only. |
| ControlPlaneService.Engine.AddAsset | src/control-plane.js:1105-1110 | Writes one balance unless it would be negative. |
| Ledger.AcceptedMeansBalanced | src/storage/postgres-store.js:36-59 | The batch check passes exactly the batches with two or more non-zero entries whose every asset sums to zero. |
| Ledger.AssertBalancedEntries | src/storage/postgres-store.js:36-59 | The two loops over a totals map decide that, with the program's error codes in order. |
| DurableWorkflowSafety.DoubleEntryMirror | src/storage/durable-workflow-service.js:565-625 | In every reachable state each asset sums to zero over all ledger accounts, each owner's units are the same in ledger and register, the treasury is the negative of investor holdings, and no investor or issuer account is negative. |
| DurableWorkflowSafety.BookedOnce | src/storage/durable-workflow-service.js:733-741 | Exactly the settled transactions are booked, once in each book. |
| DurableWorkflowSafety.BlockedRetryMayBeProposedAgain | src/storage/durable-workflow-service.js:461-477 | After a blocked retry the case takes a new proposal from anyone, its decided rounds intact, with nothing booked and no transaction or key added in between. |
| DurableWorkflowRetries.RetriedReplacements | src/storage/durable-workflow-service.js:422-493 | In every run retried cases name pairwise distinct replacements made for the original request, settled exactly when no register failure was first simulated for that request under the case's retry key. |
| DurableWorkflowRetries.ReplayReturnsTheFirstReceipt | src/storage/durable-workflow-service.js:530-542 | Once a settlement or simulated register failure has its receipt, the same request under its key gets that receipt again and changes nothing, after any further transactions and in any world. |
| DurableWorkflowRetries.HoldingsAreCovered | src/storage/durable-workflow-service.js:565-625 | In every run each positive holding in the register is within the limit of a credential of that investor for that product. |
| DurableWorkflowRetries.ExitIff | src/storage/durable-workflow-service.js:782-799 | A redemption that is otherwise in order goes through exactly inside the credential's window, as a restricted exit when revoked; outside it nothing is written and the reply is CREDENTIAL_TIME. |
| DurableWorkflowLawful.MadeByALawfulEvent | src/storage/durable-workflow-service.js:529-780 | In every run each transaction goes back to the one event that made it: product active, the latest evidence in effect and in the product's currency, cash exactly units times NAV or the price in the band, credentials good for it, every debit covered, every account it writes to open; the books then moved by exactly the request's cash and units, account by account, or for a review not at all. |
| DurableWorkflowLawful.BooksMoveOnly | src/storage/durable-workflow-service.js:136-155 | Every event leaves both books alone, settles one lawful transaction, or opens one investor's cash with its amount. |
| DurableWorkflowLawful.LawfulRequestsSettle | src/storage/durable-workflow-service.js:529-780 | Conversely a new request that is lawful under whichever evidence governs, on accounts that exist, is settled. |
| DurableWorkflowDecisions.ResolvedByTwoCalls | src/storage/durable-workflow-service.js:386-493 | In every run each resolved case goes back to the maker who opened its last round, whose kind says how it ended, and the later approval of a different person, each under the name it was made with. |
| DurableWorkflowDecisions.CasesMove | src/storage/durable-workflow-service.js:386-493 | Every way a case comes to be and moves: opened by a simulated failure, proposed while open, decided by someone other than the maker, a rejection or blocked retry opening it again. |
| DurableWorkflowDecisions.CaseOpened | src/storage/durable-workflow-service.js:386-780 | Every case stands for one simulated register failure of its transaction. |
| DurableWorkflowReviews.ProposalIff | src/storage/durable-workflow-service.js:386-420 | A round opens exactly on an open case, with a replacement if and only if it is a retry. |
| DurableWorkflowReviews.DecisionIff | src/storage/durable-workflow-service.js:422-517 | A decision is taken exactly by someone other than the maker of the pending round, and is recorded as given; a retry that could not settle is answered with the reason and leaves the case open again. |
| DurableWorkflowOpenings.OpensOnce | src/storage/durable-workflow-service.js:136-154 | In every run, once an owner's opening cash is in a product's books, every later opening for both leaves every table as it was. |
| DurableWorkflowLawful.AppendIff | src/storage/postgres-store.js:184-236 | A batch is added exactly when its entries balance and every account they name exists. |
| DurableWorkflowSafety.HistoriesAreLegal | src/storage/postgres-store.js:4-14 | Recorded histories are paths of the transition table, and no exception decision ever meets an illegal transition. |
| DurableWorkflowSafety.ExceptionRounds | src/storage/postgres-store.js:292-403 | Case and transaction correspond, and in every decided approval round the checker is not the maker. |
| DurableWorkflowSafety.PostedIsCovered | src/storage/durable-workflow-service.js:565-625 | No checked request drives an investor or issuer account below zero. |
| DurableWorkflowSafety.CashSums | src/storage/durable-workflow-service.js:573-623 | The cash entries of every kind of request cancel out, with and without a fee, and touch no unit account. |
| DurableWorkflowSafety.UnitSums | src/storage/durable-workflow-service.js:575-624 | The unit entries cancel out between treasury and investors. |
| DurableWorkflowSafety.OpeningSound | src/storage/durable-workflow-service.js:136-155 | An opening balance keeps the books balanced against the clearing account. |
| DurableWorkflowSafety.StepKeeps | src/storage/durable-workflow-service.js:386-799 | Every transaction keeps both books, the histories and the cases consistent. |
| DurableWorkflowService.WorkflowStore.TransitionTransaction | src/storage/postgres-store.js:160-182 | Moves a row and records the state only along the transition table. |
| DurableWorkflowService.WorkflowStore.AppendBatch | src/storage/postgres-store.js:184-236 | Adds only balanced batches on existing accounts. |
| DurableWorkflowService.WorkflowStore.SettleInTransaction | src/storage/durable-workflow-service.js:529-780 | Writes a settlement row by row and answers replays first: both batches while the row is REGISTER_PENDING, the role checked before the last state and the receipt; an error leaves exactly the rows written so far, as `Written` says. |
| DurableWorkflowService.RollbackIsNeeded | src/storage/durable-workflow-service.js:676-751 | Those rows must not stay: every failure after the row exists leaves it in REGISTER_PENDING or CASH_RESERVED with no receipt and no case, breaks the workflow invariant, breaks the books as well once a ledger batch is posted, and would answer the same request as in flight from then on. |
| DurableWorkflowService.WorkflowStore.SettleOrRollback | src/storage/durable-workflow-service.js:461-470 | From half-written tables a failed settlement is taken back to exactly what it found. |
| DurableWorkflowService.WorkflowStore.SettleRequest | src/storage/durable-workflow-service.js:525-527 | A whole settlement is committed, or rolled back to what it found. |
| DurableWorkflowService.WorkflowStore.ProposeExceptionResolution | src/storage/durable-workflow-service.js:386-420 | Opens an approval round and moves the original to pending approval. |
| DurableWorkflowService.WorkflowStore.ApproveExceptionResolution | src/storage/durable-workflow-service.js:422-493 | Rejects, cancels, or settles the replacement under a savepoint whose rollback undoes only the attempt. |
| DurableWorkflowService.WorkflowStore.RetryReplacement | src/storage/durable-workflow-service.js:455-493 | The attempt under its savepoint, then the original and its case moved on the outcome. |

## Left out

- ReferenceTree.RootBindsPaddedLeaves: asks the node hash to tell apart the pairs hashed in the two trees, because no hash to one field element is injective on all pairs; the other binding results about trees and checkpoints ask the same of the inputs they hash.
- ConfidentialRailRoots.OneRootPerContext: a CURRENT root is never revoked in the model; the program has no call that does it.
- ControlPlaneSafety.ReplayReturnsTheFirstResult: a request stands for its fingerprint, that is, SHA-256 is taken to be injective on the canonical texts whose unambiguity is proved separately.
- Poseidon, Pedersen and BabyJubjub, Groth16, Ed25519, AES-GCM, HMAC and key management: foreign cryptography, taken as parameters or per-step answers.
- Isolation below the transaction: snapshots, lock waits, serialization retries and triggers; unique constraints and row guards are part of the steps.
- The outbox takes its sequence number and becomes visible in one step; several consumers of one event and the topic column are not modelled.
- The advisory lock that lets a checkpoint wait for running audit writes: events are appended in sequence order.
- Balance keys of the in-memory engine are pairs, not concatenated texts, so a colon inside an identifier cannot make two accounts one; account identifiers of the durable ledger are tuples for the same reason.
- Amounts are integers, not texts: texts that do not parse, and two spellings of one number in a repeated request, are not modelled.
- One clock reading per call, where the program may read the clock more than once.
- Among NAV rows effective at the same instant the database may return any; the durable model takes the first submitted.
- A currency whose name equals a unit asset code: cash and unit assets are distinct by construction.
- Two rails sharing one idempotency key space: the confidential rail and the durable workflow have a key space each.
- The event log of the in-memory engine, its views per role, and the salted commitment in its receipts: projections without influence on the state.
- Economic commitments, the party index and encrypted payloads of the durable workflow: foreign cryptography.
- Circuit activation proposals and note owner keys: single guarded writes, taken as per-step answers.
- Bootstrap of institutions, roles and accounts: accounts may be added at any time, products and credentials are inserted once.
- Deletion of sandbox data, product catalog, external incident review, HTTP, sessions, configuration, migrations, monitoring and release tooling: plumbing or the same maker/checker pattern again.
- Liveness: that a worker, a prover or an institution eventually answers is not decided by this code.
