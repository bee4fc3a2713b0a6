# RazorFlow recovery core: a verified model

RazorFlow recovers failed payments. A webhook about a failed payment opens a recovery case for the order; a decision
pipeline scores the possible interventions, lets an AI recommend one of them, and puts the result to a policy engine;
an orchestrator executes the authorized command once; a verification service declares money recovered only against a
captured payment; and every step is written to a per-merchant hash-chained ledger. This project models that core in
Dafny and proves what it guarantees over whole runs.

`dafny verify dfyconfig.toml` checks everything.

## How the model is built

- `Tables` holds the database rows. `Services` says what every service call does to the database, as functions that
  either commit a new database or abort. `RecoveryStore` is the same code as the source has it, a class whose methods
  change rows in place, search with loops and roll back on exceptions; each method is proved equal to its function.
- `Runs` lets the calls follow one another in any order, with any clocks, policies, gateway answers, AI replies,
  scoring models and stale reads, and proves that every step keeps one invariant. `Lifecycle`, `Effects` and
  `Invariants` hold the parts of that proof. `Histories`, `ExactlyOnce`, `Interleaving` and `LedgerOfRuns` state what
  follows for every run.
- `Decision` is the pure domain layer: strategies, candidates, probability, expected value, ranking, policy. The two
  decision services are two functions with bodies of their own; `DecisionOutcomes` compares what they commit.
- `CommandedRuns` is about the runs that execute only commands handed out by earlier decisions.
- Six modules say, apart from the functions in `Services` and `Decision`, what each call answers and writes, from rows
  and inputs that can be looked up before it: `EventRows` for deliveries and synchronised rows, `FailureHandling` for
  cases, `Pricing` and `Verdicts` for decisions, `Executions` for commands, `Settlements` for webhook and poll
  settlements.
- Where a promise fails, one module has the exact condition and a reachable store or schedule that fails it:
  `Credits` and `DoubleCredit` for a payment credited to two cases, `FailureTotals` and `LostFailure` for failures
  counted once too few, `TaskOrder` and `TaskOrderExact` for a payment's status under reordered tasks,
  `WebhookRecovery` for recovery without a reported capture, `LateFailures` for a case on an order already paid.
  `Scenarios` builds the stores they start from.
- `AuditHash`, `AuditLedger` and `AuditVerify` are the hash preimage, the append protocol under concurrent writers and
  the chain checker. `Gateway` is the HTTP retry loop. `OrderPaymentSync` and `SyncEvents` are the order and payment
  status guards, first alone and then over any sequence of events on the whole store.

Conventions: a primary key is the row's index, so creation order is index order; money is in minor units, times in
microseconds, probabilities in ten-thousandths (the source rounds to four places); a case's `trail` is a history
variable; the payment gateway, the AI, the trained model, clocks and random ids are parameters. The hash is an
arbitrary function: where a result depends on it, the statement names the failure (a collision among stored events,
or an event that hashes to the genesis marker).

Facts about the code that the proofs bring out:

- Reassessment puts a waiting case back to DETECTED, which is not in the transition table, and nothing leads on from
  there: such a case can only become UNRECOVERABLE.
- An escalated case cannot execute its own HUMAN_ESCALATION command, nor any other, until it is decided again.
- A decision whose best candidate loses money stores a negative estimate, and no later decision on that case can
  commit. No scoring model can cause it exactly when DO_NOTHING or WAIT_AND_REASSESS is a candidate.
- Verification of an APPROVED or ESCALATED case writes an outcome and an amount but leaves the status; a later one
  overwrites that outcome, but for its recovery method.
- A poll that finds a paid link books a captured payment every time, also for a case that is recovered already.
- A wait in place of an intervention ends in the last second of the cooldown. In that last second the delay is 0, which
  the executor reads as none given, and waits thirty minutes.
- A bar in the payload or the actor id never makes clean events share a preimage, because the payload is JSON text. A
  bar in an entity type, entity id, action or actor type can: type `SYSTEM` with id `x|y` and type `SYSTEM|x` with id
  `y` hash alike. The services' own types and actions are bar-free literals, so their events are clean. Neither the
  merchant nor the before/after states are part of the preimage. backend/docs/final_architecture.md (line 101)
  describes the preimage as canonical JSON with the merchant id in it; the model follows the code.
- A captured payment can be credited twice: when its order fails again after recovery, a second case opens, and a second
  success event for the same payment settles that case too, so the metrics count the payment twice.
- Customers' failure totals can lose increments: a task writes the total it read, plus one, without a lock. They never
  count too many, and count exactly when no task commits a failure of a customer written since that task's own look.
- A success event settles the order's open case whatever payment status it reports, and forces the payment to CAPTURED
  first. So a case can recover though no event ever reported a capture, against the class comment in
  backend/packages/orchestration/services/verification_service.py (lines 60-64).
- A failure opens a case whenever its order has no active one, on a PAID order too, even when it is a late failure of
  the very payment that was captured; the customer can then be sent a link for an order already paid.
- Executing handed-out commands only, no case is contacted twice and no reminder ever succeeds, whatever the attempt
  limits allow: a failed execution leaves the case in EXECUTING, and the table has no edge from there to a decision.
- backend/apps/api/routes/v1/audit.py (lines 83-84) promises proof of non-tampering. The loop compares links only: it
  misses rewritten content and a removed tail. What it does detect, and what recomputing hashes would add, is proved.
- A captured payment may move to AUTHORIZED or REFUNDED, and a settlement may force it back, so its final status depends
  on the order in which tasks run. It does not, whatever store they meet and whatever other events' tasks come between
  them, exactly when the events about it report captures and failures with a capture among them, or all report one status
  and no success event of a named order reports less than a capture.

## Model

| member | source | states |
|---|---|---|
| AuditHash.RoundTripExactlyWhenClean | backend/packages/common/crypto.py:29-36 | A recorded event (JSON payload, bar-free hash and time) can be read back from its preimage exactly when no type, entity id or action holds a bar; the actor id and the payload may hold any number |
| AuditHash.DecodeNormalises | backend/packages/common/crypto.py:29-36 | Reading the preimage of any recorded event yields a clean recorded event with the same preimage, payload and time |
| AuditHash.NoJsonAfterBar | backend/packages/common/crypto.py:29-30 | JSON text never ends in a bar followed by JSON text, so the payload's start cannot be mistaken |
| AuditHash.CleanPreimagesAgree | backend/packages/common/crypto.py:29-36 | Events whose types, entity id and action are bar-free have injective preimages, whatever the actor id and the payload hold |
| AuditHash.UnmistakableExactlyWithoutBars | backend/packages/common/crypto.py:29-36 | Among all recorded events, one shares its preimage with no other exactly when none of its five supplied texts holds a bar |
| AuditHash.BarInActorTypeCollides | backend/packages/common/crypto.py:29-36 | Two events with payload {} that differ in where actor type ends and actor id begins share a preimage |
| AuditHash.PreimageLayout | backend/packages/common/crypto.py:32-35 | The preimage is the nine parts in the source's order, with a bar between each two |
| AuditLedger.Ledger.constructor | backend/packages/persistence/audit_ledger.py:16-24 | An empty ledger is a valid chain |
| AuditLedger.Ledger.LastEvent | backend/packages/persistence/audit_ledger.py:42-50 | Returns the merchant's entry of highest number, or none exactly when it has none |
| AuditLedger.Ledger.RecordEvent | backend/packages/persistence/audit_ledger.py:42-91 | The merchant's ledger grows by exactly one entry, numbered and linked after the last, with type, id, action, actor, payload and time each in its own column; other entries and ledgers stay |
| AuditLedger.KeyFreeExactlyWhenLast | backend/packages/persistence/audit_ledger.py:52-58 | The (merchant, number) key computed from a remembered read is free exactly when that read is still the last row |
| AuditLedger.AppendKeepsChain | backend/packages/persistence/audit_ledger.py:52-73 | An entry computed from the last row extends every merchant's chain property by one entry |
| AuditLedger.StaleInsertAborts | backend/packages/persistence/models/audit_event.py:22 | An insert aborts its transaction exactly when its read is no longer the last row, and never touches committed rows |
| AuditLedger.OneAppenderPerMerchant | backend/packages/persistence/models/audit_event.py:22 | Two open transactions never both hold uncommitted entries of one merchant |
| AuditLedger.EveryRunKeepsLedgers | backend/packages/persistence/audit_ledger.py:42-91 | Under any interleaving of reads, inserts, commits and rollbacks the invariant holds and no committed row changes |
| AuditLedger.LedgersAreGaplessChains | backend/packages/persistence/audit_ledger.py:42-91 | From the empty table every interleaving leaves each merchant a ledger 1..n linked from genesis |
| AuditVerify.VerifyChain | backend/apps/api/routes/v1/audit.py:103-119 | Accepts exactly when every link is accepted; otherwise reports the number of the first broken one |
| AuditVerify.BreakExistsExactlyWhenRejected | backend/apps/api/routes/v1/audit.py:107-119 | A ledger is rejected exactly when it has a first break |
| AuditVerify.WellFormedIsAccepted | backend/apps/api/routes/v1/audit.py:107-119 | Every ledger the append protocol builds is accepted |
| AuditVerify.DeletionDetected | backend/apps/api/routes/v1/audit.py:107-119 | Removing a block that is not a suffix is reported at the first surviving event after it, exactly unless the two hashes around the gap coincide |
| AuditVerify.SuffixRemovalInvisible | backend/apps/api/routes/v1/audit.py:107-119 | Cutting a tail off an accepted ledger leaves it accepted |
| AuditVerify.ContentRewriteInvisible | backend/apps/api/routes/v1/audit.py:107-119 | Rewriting an event's action, payload, actor or time changes no verdict and no reported break |
| AuditVerify.LinksPlusHashesSuffice | backend/apps/api/routes/v1/audit.py:107-119 | For a ledger numbered 1..n, links plus recomputed hashes decide well-formedness, both ways |
| AuditVerify.LastHashCommitsToHistory | backend/packages/persistence/audit_ledger.py:53-73 | Two clean well-formed ledgers with equal last hashes are identical, unless the hash collided or produced the genesis marker on their events |
| AuditLedger.EveryRunIsSerial | backend/packages/persistence/audit_ledger.py:42-91 | However writers interleave, each merchant's committed ledger equals the one its committed calls, made one after the other in commit order, would build |
| AuditLedger.RowsCarryTheirCalls | backend/packages/persistence/audit_ledger.py:61-88 | However writers interleave, a merchant has one row for each of its committed calls, and row i holds the body and timestamp of call i, column by column |
| LedgerOfRuns.RunsWriteVerifiableChains | backend/packages/persistence/audit_ledger.py:42-91 | Whenever the ledger's commit log holds a merchant's record_event calls in the run's order, however other writers interleaved, the merchant's committed rows are the chain of its records, each with its record's body and timestamp column by column, numbered from 1, linked from genesis, recomputable and accepted |
| LedgerOfRuns.EveryLogIsWritten | backend/packages/persistence/audit_ledger.py:42-91 | Every list of records is the commit log of some run of the protocol |
| LedgerOfRuns.RunsOnlyAppendToChains | backend/packages/persistence/audit_ledger.py:42-91 | What a run records later is appended to each merchant's chain |
| StateMachine.WalkLengthBounded | backend/packages/domain/state_machine.py:20-82 | A status history is at most ten steps per way back, plus the rank of where it stands |
| StateMachine.RankClimbs | backend/packages/domain/state_machine.py:20-82 | Every edge climbs in rank but the two into DIAGNOSING and the one into DETECTED |
| StateMachine.EndsExactly | backend/packages/domain/state_machine.py:20-82 | From which statuses a case can be stopped, expire, be given up and be recovered |
| StateMachine.TerminalOnlyLast | backend/packages/domain/state_machine.py:20-82 | Terminal statuses are absorbing and RECOVERED is entered only from VERIFYING |
| StateMachine.ApprovedBeforeExecution | backend/packages/domain/state_machine.py:20-82 | No history reaches EXECUTING, WAITING_EXTERNAL, VERIFYING, RECOVERED or EXPIRED without APPROVED before |
| Gateway.ExecuteRequest | backend/packages/adapters/razorpay/gateway_adapter.py:69-115 | At most max_retries + 1 requests and one when retry is not permitted; sleeps exactly 0.5(2^(requests-1) - 1) s; a retryable reply is final only when retry is not permitted or the budget is spent; the fall-through raise is reached exactly for a negative max_retries |
| OrderPaymentSync.OrderPaidExactlyWhenCaptured | backend/packages/orchestration/services/order_payment_sync_service.py:98-130 | An order ends PAID exactly when one of its events was a captured or authorized success |
| OrderPaymentSync.OrderStatusOrderIndependent | backend/packages/orchestration/services/order_payment_sync_service.py:98-130 | The final order status is the same for every permutation of the events |
| OrderPaymentSync.PaymentOrderIndependence | backend/packages/orchestration/services/order_payment_sync_service.py:158-202 | The final payment status is the same for every permutation exactly when the events are captures and failures only, or all alike |
| OrderPaymentSync.CaptureWins | backend/packages/orchestration/services/order_payment_sync_service.py:189-196 | Among captures and failures, one capture decides |
| SyncEvents.OrderAfterEvents | backend/packages/orchestration/services/order_payment_sync_service.py:73-132 | The synchronisation calls alone: an order's status after any events of any orders and merchants is the fold over its own events |
| SyncEvents.PaymentAfterEvents | backend/packages/orchestration/services/order_payment_sync_service.py:135-204 | The synchronisation calls alone: a payment row's status is the fold over its own events |
| SyncEvents.OrderStatusIgnoresArrivalOrder | backend/packages/orchestration/services/order_payment_sync_service.py:73-132 | The synchronisation calls alone: any reordering of a batch of events leaves a new order with the same status, PAID exactly when some event about it is a success event |
| SyncEvents.PaymentStatusIgnoresArrivalOrder | backend/packages/orchestration/services/order_payment_sync_service.py:135-204 | The synchronisation calls alone: any reordering of a batch leaves a new payment with the same status when its events are captures and failures only, or all alike |
| SyncEvents.SyncOrderMoves | backend/packages/orchestration/services/order_payment_sync_service.py:73-132 | An event moves the order it is about by the guarded rule, and no other order |
| EventRows.DeliveryWritesExactly | backend/packages/orchestration/services/webhook_ingestion_service.py:123-162 | A delivery stores the event as it came, unprocessed, exactly when none of its id is stored |
| EventRows.TaskMarksItsEvent | backend/apps/worker/tasks/ingestion.py:33-57 | A task marks its event whenever it changes anything, only marks one it cannot parse, and answers missing and processed events as such |
| EventRows.TaskWritesRowsExactly | backend/packages/orchestration/services/order_payment_sync_service.py:26-204 | A task that takes effect writes exactly the customer first found by email or phone, the order first found by its id, and the payment, each with the event's fields, and captures the payment besides exactly when the event is put to an open case |
| TaskOrder.OrderStatusIgnoresTaskOrder | backend/apps/worker/tasks/ingestion.py:28-134 | Whatever else the tasks do, a new order's status is the same for every order of the whole tasks |
| TaskOrder.PaymentAfterTasks | backend/apps/worker/tasks/ingestion.py:28-134 | While no case is open, or when no success event about the payment reports less than a capture, its status after the whole tasks is the fold over its reports |
| TaskOrder.CaptureWinsOverTasks | backend/apps/worker/tasks/ingestion.py:28-134 | Among captures and failures a capture decides after the whole tasks too, whatever settlements happen between |
| TaskOrderExact.TaskOrderIrrelevantExactly | backend/packages/orchestration/services/verification_service.py:292-314 | Over every reachable store and every batch around them, the tasks of a payment's events end in one status under every reordering exactly when a capture is among captures and failures only, or the reports are alike and no success event of a named order reports less than a capture |
| TaskOrderExact.AlikeReportsDifferentEnds | backend/packages/orchestration/services/verification_service.py:312-314 | In a reachable store order.paid and payment.authorized, both reporting AUTHORIZED, leave CAPTURED in one order and AUTHORIZED in the other |
| WebhookRecovery.HandlingMovesPayment | backend/packages/orchestration/services/verification_service.py:292-314 | A task moves its payment by the guarded rule, and to CAPTURED whatever was reported when the named order has an open case; it moves no other payment |
| WebhookRecovery.WebhookRecoversExactly | backend/packages/orchestration/services/verification_service.py:252-325 | A webhook makes a case RECOVERED exactly when it is a success event, new and without insert conflict, naming the order whose open case this is, the case is executed, waiting or verified, and the payment is in its currency; the reported status plays no part |
| WebhookRecovery.UnreportedRecoveryExactly | backend/packages/orchestration/services/verification_service.py:264-268 | Without reporting a capture it does so exactly under the same condition by its event type |
| WebhookRecovery.RecoveredWithoutReportedCapture | backend/packages/orchestration/services/verification_service.py:60-64 | A reachable store with a RECOVERED case in which no event ever reported a captured payment |
| LateFailures.WebhookOpensExactly | backend/packages/orchestration/services/case_creation_service.py:74-155 | A webhook opens a case, for the order and payment it names, exactly when it is a failure whose order has no active case; order and payment status play no part |
| FailureHandling.FailureWritesExactly | backend/packages/orchestration/services/case_creation_service.py:76-178 | A failure gives its order's active case the event's payment, category, transient flag and diagnosis and changes no other field; without one it opens a case with the payment's amount and currency, the event's diagnostics and a deadline in 72 hours |
| FailureHandling.FraudBlockStopsContacts | backend/packages/orchestration/services/case_creation_service.py:83-86 | After a failure blocked for fraud is appended to a case, no decision before its next failure authorizes a contact, whatever the AI replies and whatever runs between |
| LateFailures.PaidOrderIsSentALink | backend/packages/orchestration/services/case_creation_service.py:38-55 | A reachable store in which a case opened from a captured payment on a PAID order waits on a payment link sent for it |
| Decision.GenerateCandidates | backend/packages/domain/candidate_generator.py:30-58 | The loop returns exactly the specified candidate list |
| Decision.CandidatesExact | backend/packages/domain/candidate_generator.py:30-58 | The candidates are the eligible actions the merchant allows, each once; with none, DO_NOTHING alone |
| Pricing.OffersExactly | backend/packages/domain/candidate_generator.py:30-58 | Each of the five actions is on offer exactly under its own conditions on attempts, category, amount, customer and policy |
| Decision.ScoreCandidates | backend/packages/orchestration/services/decision_service.py:123-134 | The loop prices every candidate with its score, in order |
| Pricing.HeuristicIsTheFormula | backend/packages/domain/scoring/probability_scorer.py:60-138 | The heuristic score is the source's formula over the reals, rounded to the nearest ten-thousandth and ties to even; the formula stays in [0, 1] |
| Pricing.ScoresExactly | backend/packages/domain/scoring/probability_scorer.py:239-270 | A fraud block scores 0; a prediction is clamped to [0, 1]; without one the heuristic applies |
| Decision.HeuristicRange | backend/packages/domain/scoring/probability_scorer.py:75-138 | A non-fraud active intervention scores within 0.008 and 0.9375 before and after clamping and rounding |
| Decision.HeuristicMonotone | backend/packages/domain/scoring/probability_scorer.py:118-138 | More attempts never raise the score and three or more past successes never lower it, after rounding |
| Decision.ScoreInRange | backend/packages/domain/scoring/probability_scorer.py:239-270 | Model or fallback, the score lies in [0, 1] |
| Decision.RankSortsPermutation | backend/packages/domain/scoring/erv_ranker.py:25-42 | Ranking returns a permutation of its input, sorted by the four-level key |
| Decision.RankedPermutationUnique | backend/packages/domain/scoring/erv_ranker.py:34-42 | There is one sorted permutation of results with one entry per action |
| Decision.RankingIgnoresInputOrder | backend/packages/domain/scoring/erv_ranker.py:25-42 | Reordering the candidates gives the same ranking |
| Decision.RankingsExact | backend/packages/domain/scoring/erv_calculator.py:38-77 | The ranked table holds exactly one correctly priced result per candidate, the best net first |
| Pricing.PricesExactly | backend/packages/domain/scoring/erv_calculator.py:50-60 | Every entry has its action's cost and risk in minor units, the share of the amount rounded down, and what they leave |
| Pricing.RankedByPromise | backend/packages/domain/scoring/erv_ranker.py:25-42 | The table has one entry per candidate, each strictly better than the next: more left, likelier, cheaper, or earlier in the fixed list |
| Decision.TopValueNonNegativeExactly | backend/packages/domain/scoring/erv_calculator.py:50-60 | The best net value is non-negative exactly when some candidate's gross covers its cost and penalty |
| Decision.FreeCandidateSuffices | backend/packages/domain/strategies/do_nothing.py:20-33 | DO_NOTHING or WAIT_AND_REASSESS among the candidates makes the best net value non-negative |
| Decision.PipelineContactsExactlyThroughGates | backend/packages/domain/policy/engine.py:44-193 | For every AI reply the customer is contacted exactly with the proposed action and exactly when every gate passes |
| Decision.PipelineAuthorizesExactly | backend/packages/domain/policy/engine.py:44-193 | For every AI reply, exactly when the pipeline calls in a person and exactly when it waits; a contact is only ever the proposed one |
| Verdicts.PipelineAnswersExactly | backend/packages/domain/policy/engine.py:44-193 | For every AI reply: verdict, action, rule and delay, and whether the case is left REJECTED, ESCALATED or APPROVED, exactly by deadline, attempts, cooldown, fraud, threshold and disallowed list; a cooldown's wait ends in its last second |
| Decision.PipelineRules | backend/packages/domain/policy/engine.py:121-172 | In the pipeline rule 6 never fires and rule 8 yields only DO_NOTHING, for every AI reply |
| Decision.EngineAloneIsNotEnough | backend/packages/domain/policy/engine.py:121-134 | Alone, the engine can authorize a payment link the merchant disallows on a case out of attempts |
| DecisionOutcomes.SameProposalSameDecision | backend/packages/orchestration/services/ai_decision_service.py:249-379 | Whenever the AI's proposal is the top-ranked action, the two services commit or abort alike, and differ only in the case's confidence and diagnosis, the decision row's confidence, rationale and trace, the command's note, and the ledger entry's action and actor |
| DecisionOutcomes.FallbackIsDeterministic | backend/packages/orchestration/services/ai_decision_service.py:175-235 | With AI off, failing or outside the candidates the same holds, with the top action, a fallback mark, and confidence 1 when off and 0.5 otherwise |
| DecisionOutcomes.AiCannotTouchEstimates | backend/packages/orchestration/services/ai_decision_service.py:140-158 | For every reply, candidates, rankings and the stored estimate are the deterministic ones, and commands share a key exactly when they authorize one action |
| DecisionOutcomes.CommandsFollowStatus | backend/packages/orchestration/services/ai_decision_service.py:272-313 | A command is handed out exactly when the case is left ESCALATED, or APPROVED for more than DO_NOTHING; the case is left REJECTED exactly when nothing is to be done without that being approved; the command carries the next attempt number |
| Verdicts.CaseDecisionExactly | backend/packages/orchestration/services/decision_service.py:57-275 | The deterministic service commits exactly on a readable case that awaits a decision; then case, row, record and command (with the case's amount, currency and deadline) are exactly as listed, and nothing else changes |
| Verdicts.AiDecisionExactly | backend/packages/orchestration/services/ai_decision_service.py:68-399 | The same of the AI service for every reply: a recommended candidate is followed as given, anything else replaced by the best with confidence 1 or 0.5 and marked |
| Verdicts.SpentCasesAreRejected | backend/packages/orchestration/services/decision_service.py:167-172 | Past the deadline or at the merchant's limit every committed decision of either service leaves REJECTED and hands out nothing |
| DecisionOutcomes.ContactCommandsPassEveryGate | backend/packages/orchestration/services/ai_decision_service.py:192-313 | A committed decision hands out a link or reminder command exactly when it was proposed and every gate passes, for every AI reply |
| DecisionOutcomes.EstimateReadableExactly | backend/packages/orchestration/services/ai_decision_service.py:100-109 | The stored estimate can be read by the next decision exactly when the top candidate does not lose money |
| DecisionOutcomes.EstimateSafeForEveryModelExactly | backend/packages/domain/scoring/erv_calculator.py:50-60 | No scoring model can make the top net value negative exactly when DO_NOTHING or WAIT_AND_REASSESS is a candidate |
| DecisionOutcomes.AllowingDoNothingKeepsEstimateReadable | backend/packages/domain/value_objects.py:17-21 | With DO_NOTHING allowed the stored estimate can always be read back |
| DecisionOutcomes.OnlyLinksAllowedIsUnreadable | backend/packages/domain/value_objects.py:17-19 | With only links allowed and less than 250 at risk, every model and every reply: the decision commits, approves, and leaves an estimate no later decision can read |
| Services.CommandKeyInjective | backend/packages/domain/commands.py:44 | An idempotency key determines its case, attempt number and action |
| Services.MatchingAttemptFound | backend/packages/orchestration/services/verification_service.py:134-151 | The credited attempt is the newest of the case with the settled link's reference, else the newest of the case, and missing only when the case has none |
| Services.PriorLinkIsNewest | backend/packages/orchestration/executors/payment_link_reminder_executor.py:39-52 | A reminder uses the newest acknowledged or succeeded link of the case, and fails exactly when there is none |
| Lifecycle.RecoverStatus | backend/packages/orchestration/services/verification_service.py:161-174 | A settlement makes the case RECOVERED exactly from EXECUTING, WAITING_EXTERNAL and VERIFYING, and otherwise leaves the status |
| Lifecycle.ExecutionEvolves | backend/packages/orchestration/services/action_orchestrator.py:103-107 | Any execution extends the history along allowed edges and adds one attempt |
| Executions.ExecutionWritesExactly | backend/packages/orchestration/services/action_orchestrator.py:54-195 | A command whose case is gone, ended or escalated, whose key is known or which has no executor changes nothing; any other adds one attempt, moves the case by the table, counts it, records two entries, and changes nothing else |
| Executions.LinkExecutionExactly | backend/packages/orchestration/executors/payment_link_executor.py:41-149 | A link attempt is ACKNOWLEDGED exactly when order and merchant exist and the gateway accepts, with the gateway's link id then and none otherwise; an approved case ends UNRECOVERABLE, EXECUTING or WAITING_EXTERNAL exactly by missing row, raised or retryable, accepted or declined for good |
| Executions.ReminderExecutionExactly | backend/packages/orchestration/executors/payment_link_reminder_executor.py:39-145 | The same of a reminder, about the newest link held |
| Executions.InternalExecutionExactly | backend/packages/orchestration/executors/human_escalation_executor.py:26-50 | Waiting and calling in a person succeed without the gateway; an approved case then waits, or stays in EXECUTING |
| Executions.ReassessmentWritesExactly | backend/apps/worker/tasks/ingestion.py:177-196 | Exactly the waiting and due cases go back to DETECTED, off the schedule, and nothing else changes |
| Lifecycle.ReassessEvolves | backend/apps/worker/tasks/ingestion.py:187-196 | Reassessment leaves a case as it is or takes it from WAITING_EXTERNAL to DETECTED, appending exactly that to its history |
| Effects.VerifyEffect | backend/packages/orchestration/services/verification_service.py:81-245 | A verification succeeds exactly on a recovered case or a captured payment in its currency, and writes the outcome only in the second case |
| Settlements.VerificationWritesExactly | backend/packages/orchestration/services/verification_service.py:81-235 | A verification changes nothing, or writes exactly the case's walk and amount, the credited attempt's success, the outcome with payment, attempt, cost, net and method, and one record |
| Settlements.BookedCostIsPricedCost | backend/packages/orchestration/services/verification_service.py:35-41 | What is booked as cost is what the strategy priced, for every case, context and policy |
| Settlements.PollsNewestLink | backend/packages/orchestration/services/verification_service.py:365-379 | The polled link is that of the newest payment-link attempt of the case with a reference, and none exactly when there is no such attempt |
| Settlements.PollWritesExactly | backend/packages/orchestration/services/verification_service.py:381-417 | A poll that finds no paid link changes nothing; one that does books the order PAID and a captured payment of the amount at risk, and settles the case by it unless recovered already |
| Settlements.PollRecoversExactly | backend/packages/orchestration/services/verification_service.py:381-417 | A poll makes a case RECOVERED exactly when it polls that case, finds a paid link for it, and the case is executed, waiting or verified |
| Settlements.PollAnswersExactly | backend/packages/orchestration/services/verification_service.py:328-417 | A poll answers verified exactly when it finds a paid link, and raises exactly for a missing case or merchant or a taken payment id |
| Settlements.WebhookSettlesExactly | backend/packages/orchestration/services/verification_service.py:252-325 | A success event put to an open case captures its payment and settles the case by it exactly when the currency is the case's; one put to no case changes no case, attempt, outcome, decision or record |
| Invariants.LookupsNeverAmbiguous | backend/packages/orchestration/services/verification_service.py:276-291 | With one active case per order no single-row lookup sees two rows |
| Invariants.SyncCountsOnce | backend/packages/orchestration/services/order_payment_sync_service.py:50-68 | Synchronising one event writes one customer's failure total exactly when it is a failure with a contact, whatever customer row was read before |
| Invariants.ExecutorResults | backend/packages/orchestration/executors/payment_link_reminder_executor.py:39-145 | An executor's success flag, attempt status and reference agree; a link succeeds exactly when order and merchant exist and the gateway accepts, a reminder when it has a link and the same holds; its reference is an earlier link's |
| Runs.CoreWebhookVerified | backend/packages/orchestration/services/verification_service.py:252-325 | Verifying from a webhook always commits and keeps the invariant |
| Runs.StepKeepsInv | backend/apps/worker/tasks/ingestion.py:28-134 | Every call of every service keeps the invariant and only lets rows evolve |
| Runs.RunKeepsInv | backend/apps/worker/tasks/ingestion.py:28-204 | Every run keeps the invariant and relates any state to every later one |
| Histories.OutcomeTotalsEqualCaseTotals | backend/apps/api/routes/v1/metrics.py:53-66 | After every run the metrics' sum over outcomes equals the sum over cases, per merchant |
| Histories.OutcomesExact | backend/packages/orchestration/services/verification_service.py:152-214 | After every run a case has at most one outcome; it carries the settling payment's amount, the credited attempt's cost and the floored net, and the case carries the amount; without one the case holds nothing |
| Histories.RecoveredMeansApprovedAndPaid | backend/packages/orchestration/services/verification_service.py:104-174 | After every run a RECOVERED case was approved and verified, and a payment in its currency carries its recovered amount |
| Histories.HistoriesAreBoundedWalks | backend/packages/domain/state_machine.py:20-82 | After every run each history is a walk in the table plus the reassessment edge, no longer than ten per attempt plus 21 |
| Histories.HistoriesOnlyGrow | backend/apps/worker/tasks/ingestion.py:187-196 | Between any two states of a run histories are only extended, terminal statuses stay, and a case sent back to DETECTED never recovers |
| Histories.AttemptsExact | backend/packages/orchestration/services/action_orchestrator.py:109-195 | After every run counts equal attempts, keys are unique, each attempt has one creation entry followed by one completion that tells its failure, and a reminder reuses an earlier link of its case |
| Histories.AttemptsAndOrdersOnlyAdvance | backend/packages/domain/state_machine.py:104-122 | Between any two states an attempt moves only from ACKNOWLEDGED to SUCCEEDED and a PAID order stays PAID |
| Histories.SingleRowLookupsNeverRaise | backend/packages/orchestration/services/case_creation_service.py:38-55 | After every run each order has at most one active case and no single-row lookup raises |
| Histories.MoneyMovesOnlyBySettlement | backend/packages/orchestration/services/verification_service.py:104-214 | A step changes a recovered amount or enters RECOVERED only as a webhook or poll after which the case's outcome names a captured payment in its currency and of that amount |
| Histories.EnteringRecovered | backend/packages/orchestration/services/verification_service.py:104-214 | RECOVERED is entered only from EXECUTING, WAITING_EXTERNAL or VERIFYING, after an approval, by a webhook or a poll; the case's one outcome then names a captured payment in its currency and of the recovered amount |
| Histories.RecoveredAmountIsFinal | backend/packages/orchestration/services/verification_service.py:81-102 | Once RECOVERED, status and amount never change again in any run |
| Histories.WaitEndsExactlyAtItsDelay | backend/packages/orchestration/executors/wait_and_reassess_executor.py:25-54 | A case sent to wait is taken up exactly by a reassessment at or after its delay, thirty minutes by default |
| CommandedRuns.ContactsGoBackToGates | backend/packages/orchestration/services/ai_decision_service.py:293-314 | When only commands handed out by earlier decisions are executed, every link or reminder attempt goes back to a decision on its case that was put this contact and passed every gate in the state it met |
| CommandedRuns.OneContactPerCase | backend/packages/orchestration/services/action_orchestrator.py:167-172 | In such runs a case has at most one attempt besides calling in a person, and one of those, so it is contacted at most once; and every reminder attempt is FAILED |
| CommandedRuns.AttemptsBounded | backend/packages/orchestration/services/action_orchestrator.py:167-172 | In such runs no case ever has more than two attempts |
| Histories.EscalatedCasesNeverExecute | backend/packages/orchestration/services/action_orchestrator.py:103-107 | Until it is decided again an escalated case stays escalated and makes no attempt, in any run |
| Histories.NegativeEstimateBlocksDecisions | backend/packages/orchestration/services/decision_service.py:84-88 | A negative stored estimate stays for ever and no later decision on the case commits |
| ExactlyOnce.RepeatInvisible | backend/packages/orchestration/services/webhook_ingestion_service.py:123-162 | Repeating a delivery, a task or a command whose first go took effect changes nothing, at any later point of any run |
| ExactlyOnce.RepeatsCanBeErased | backend/apps/worker/tasks/ingestion.py:39-41 | Erasing every delivery, task and command whose key is done by then leaves the final store; what remains repeats only goes that left no trace |
| ExactlyOnce.EachKeyWorksOnce | backend/packages/orchestration/services/action_orchestrator.py:68-88 | In any schedule at most one call under each key changes the store |
| ExactlyOnce.DuplicateDeliveriesInvisible | backend/packages/orchestration/services/webhook_ingestion_service.py:123-162 | Leaving out every delivery after the first of its event id leaves the final store |
| FailureTotals.WriteLosesExactly | backend/packages/orchestration/services/order_payment_sync_service.py:39-68 | A task that writes the total it read earlier, plus one, loses a failure exactly when the customer it found was written since |
| FailureTotals.TotalsExactlyWhenNothingLost | backend/packages/orchestration/services/order_payment_sync_service.py:39-68 | In every schedule customers' failure totals are at most the distinct processed failures that named a contact, and equal exactly when no task commits a failure of a customer written since that task's look |
| FailureTotals.TotalsCountDistinctEvents | backend/packages/orchestration/services/order_payment_sync_service.py:50-68 | Where every task reads and writes in one step the totals are exactly the distinct processed failures that named a contact |
| LostFailure.TwoFailuresCountedOnce | backend/packages/orchestration/services/order_payment_sync_service.py:48-68 | A schedule in which two tasks read one customer before either writes, and the totals fall short |
| ExactlyOnce.RepeatedCommandReturnsFirstAttempt | backend/packages/orchestration/services/action_orchestrator.py:68-88 | A command executed again at any later point changes nothing and returns its first attempt, of the same case and action |
| Interleaving.InterleavingIsARun | backend/packages/orchestration/services/case_creation_service.py:74-155 | Any interleaving of lookups and calls of many workers keeps the invariant and ends where a plain run of those calls, with the order, payment, case and customer rows each worker saw, ends |
| Interleaving.OneActiveCasePerOrder | backend/packages/persistence/models/recovery_case.py:127-143 | However creators interleave, an order never has two active cases |
| Interleaving.CreationAbortsExactlyWhenStale | backend/packages/orchestration/services/case_creation_service.py:74-155 | Creation aborts exactly when its earlier lookup found no active case and one opened since is still active |
| Interleaving.TaskAbortsExactlyWhenOvertaken | backend/apps/worker/tasks/ingestion.py:28-134 | In every schedule a webhook task aborts exactly when its own look missed its order or payment and the row exists by now, or it is a failure and a case of its order, opened since that look, is still active |
| Interleaving.ConcurrentDeliveriesShareOneRow | backend/packages/orchestration/services/webhook_ingestion_service.py:123-162 | However deliveries of an event interleave, one row results and every loser returns it as a duplicate and changes nothing |
| Credits.StepCreditsOnceExactly | backend/packages/orchestration/services/verification_service.py:252-325 | A step makes one payment settle two outcomes exactly when it is a webhook whose recorded payment was credited to another case while its order has an open case in that currency |
| Credits.OneCreditPerPaymentExactly | backend/packages/orchestration/services/verification_service.py:252-325 | Every state of a run credits each payment at most once exactly when no webhook in it is such a step |
| DoubleCredit.OnePaymentCreditedTwice | backend/packages/orchestration/services/case_creation_service.py:38-55 | A reachable store in which one captured payment settles the outcomes of two cases |
| RecoveryStore.Store.RecordEvent | backend/packages/persistence/audit_ledger.py:74-91 | Appends one record and changes nothing else |
| RecoveryStore.Store.IngestRazorpayWebhook | backend/packages/orchestration/services/webhook_ingestion_service.py:123-162 | In place, with the lookup fresh or stale: one row per event, the rejected insert included, as specified |
| RecoveryStore.Store.SyncCustomer | backend/packages/orchestration/services/order_payment_sync_service.py:26-70 | In place: upserts the customer and its failure counter, as specified |
| RecoveryStore.Store.SyncOrder | backend/packages/orchestration/services/order_payment_sync_service.py:73-132 | In place: upserts the order under the PAID guard, as specified |
| RecoveryStore.Store.SyncPayment | backend/packages/orchestration/services/order_payment_sync_service.py:135-204 | In place: upserts the payment under the CAPTURED guard, as specified |
| RecoveryStore.Store.CreateOrUpdateRecoveryCase | backend/packages/orchestration/services/case_creation_service.py:58-178 | In place: updates the active case, or inserts one and walks it to DIAGNOSING, or raises, as specified; either case ends with the event's payment, category, flag and diagnosis |
| RecoveryStore.Store.FindMatchingAttempt | backend/packages/orchestration/services/verification_service.py:143-151 | The two searches over the attempts find the attempt to credit |
| RecoveryStore.Store.VerifyAndRecoverCase | backend/packages/orchestration/services/verification_service.py:66-245 | In place: case, attempt, outcome and ledger after a verification are as specified |
| RecoveryStore.Store.VerifyFromWebhookEvent | backend/packages/orchestration/services/verification_service.py:252-325 | In place: lookups, settling payment and verification are as specified |
| RecoveryStore.Store.PollAndReconcileCase | backend/packages/orchestration/services/verification_service.py:328-417 | In place: link search, order, new payment and verification are as specified; an unpaid link changes nothing |
| RecoveryStore.Store.ExecuteCommand | backend/packages/orchestration/services/action_orchestrator.py:47-195 | In place: the attempt from DRAFT to its result, the case, the counters and both records are as specified; a link attempt is ACKNOWLEDGED exactly when both rows exist and the gateway accepts; an exception undoes all of it |
| RecoveryStore.Store.ConcludeCaseDecision | backend/packages/orchestration/services/decision_service.py:141-275 | In place: status walk, estimate, command, decision row and record of the deterministic service are as specified; past the deadline or the limit the case ends REJECTED without a command; an invalid transition undoes all of it |
| RecoveryStore.Store.SeekAdvice | backend/packages/orchestration/services/ai_decision_service.py:175-235 | The AI's recommendation and metadata, or those of the three fallbacks, as specified |
| RecoveryStore.Store.ConcludeWithAi | backend/packages/orchestration/services/ai_decision_service.py:249-399 | In place: the same for the AI service, with the confidence and diagnosis it writes to the case and its own row, note and record; past the deadline or the limit REJECTED without a command |
| RecoveryStore.Store.EvaluateCaseDecision | backend/packages/orchestration/services/decision_service.py:57-275 | In place: the deterministic pipeline is as specified |
| RecoveryStore.Store.EvaluateWithAi | backend/packages/orchestration/services/ai_decision_service.py:68-399 | In place: the pipeline with the AI reply, its fallbacks and all it stores is as specified |
| RecoveryStore.Store.HandleEvent | backend/apps/worker/tasks/ingestion.py:58-117 | In place: synchronisation, then case creation or verification, is as specified |
| RecoveryStore.Store.ProcessRawWebhook | backend/apps/worker/tasks/ingestion.py:28-134 | In place: the processed flag, the parse error and the rollback on an exception are as specified |
| RecoveryStore.Store.ReassessScheduledCases | backend/apps/worker/tasks/ingestion.py:169-204 | In place: exactly the due cases go back to DETECTED, and they are counted |

## Left out

- The HTTP API, frontend, demo seeding, settings, logging, Celery and Redis: plumbing around the services.
- The execute and simulate endpoints of backend/apps/api/routes/v1/cases.py: they build commands and payments of their own. The execute endpoint numbers the latest decision's command by the case's current count, not the decision's, so `CommandedRuns` does not speak of it; arbitrary runs allow any command and claim no cap.
- Side effects outside the database: a payment link the gateway created stays created when the transaction aborts.
- SQL row locks and isolation: a call is one atomic step, except where the source reads and then inserts under a unique constraint (audit append, raw event, order, payment, active case) or reads a customer and then writes it, which are modelled as separate steps; the locks that make some of those interleavings rarer are left out. A call that aborts for any other database reason is a step that changes nothing.
- Histories.HistoriesOnlyGrow: calls are whole steps, so it does not cover verification, which reads the case without a lock (backend/packages/orchestration/services/verification_service.py, lines 277-289), overlapping a reassessment that commits in between: the code then takes the case from DETECTED to RECOVERED. Two overlapping verifications or decisions of one case that both read its old row are left out in the same way.
- Customer rows: the customer lookup is a look that other tasks may overtake; that two rows may share a contact follows, and which of them a later lookup returns (the source names no order) is the first.
- SHA-256, HMAC and JSON serialisation: the hash is an arbitrary function and the payload is its canonical text.
- Webhook signature checks and payload parsing: a delivery arrives as an event id and the parsed fields, or as unparseable.
- The failure taxonomy: category and transient flag are fields of the parsed event.
- Customer enrichment, risk tiers and masking: the context of a decision is an arbitrary input.
- Gemini, prompts and telemetry: the AI is an arbitrary reply with arbitrary metadata. Of a rationale only its origin is kept, not its wording; of the metadata not the prompt and schema versions or the token usage.
- Audit payloads of the services: a record keeps merchant, entity, action and actor; the payload objects, which differ between the two decision services, are arbitrary text in the ledger.
- The trained model: its predictions are an arbitrary table, clamped and with heuristic fallback as in the source.
- Floating point: probabilities are exact ten-thousandths and the heuristic is computed in exact millionths, so rounding noise of binary floats is not modelled.
- Error texts, receipts, methods and descriptions of payments, orders and attempts: stored, never read by the modelled logic.
- The `active_payment_link_id` metadata flag is a field of the case that no modelled service writes, as in the source.
- Version labels (policy, scoring model, prompt) of commands and decision rows.
- Interleaving.Step: only looks under unique constraints and at the customer are remembered between steps; the lock on the case row makes the attempt-key check atomic in the source.
