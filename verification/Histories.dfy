/** What every run says about money and about each case's history. */
module Histories {
  import opened Domain
  import opened StateMachine
  import opened Tables
  import opened Services
  import opened Lifecycle
  import opened Effects
  import opened Invariants
  import opened Runs

  // ---- Every reachable database ----

  lemma ReachableInv(ops: seq<Op>)
    ensures Inv(Run(EMPTY, ops))
  {
    EmptyInv();
    RunKeepsInv(EMPTY, ops);
  }

  /** The metrics endpoint's total over outcomes is the total over cases, for every merchant. */
  lemma OutcomeTotalsEqualCaseTotals(ops: seq<Op>, merchant: nat)
    ensures SumOutcomes(Run(EMPTY, ops).outcomes, merchant) == SumRecovered(Run(EMPTY, ops).cases, merchant)
  {
    ReachableInv(ops);
  }

  /** No case has two outcomes; an outcome carries its settling payment's amount, which its case carries too, the
      cost of the attempt credited, and their difference floored at zero; no outcome, no money. */
  lemma OutcomesExact(ops: seq<Op>, c: nat)
    requires c < |Run(EMPTY, ops).cases|
    ensures var db := Run(EMPTY, ops);
      match FindOutcome(db.outcomes, c)
      case None => db.cases[c].amountRecovered == 0 && db.cases[c].status != RECOVERED
      case Some(i) =>
        && i < |db.outcomes| && OutcomeOk(db, db.outcomes[i]) && db.outcomes[i].caseId == c
        && forall j | 0 <= j < |db.outcomes| && j != i :: db.outcomes[j].caseId != c
  {
    ReachableInv(ops);
    FindOutcomeFound(Run(EMPTY, ops).outcomes, c);
    assert Unpaid(Run(EMPTY, ops), c);
  }

  /** A RECOVERED case was approved and then verified, and a payment in its currency settled its whole amount. */
  lemma RecoveredMeansApprovedAndPaid(ops: seq<Op>, c: nat)
    requires c < |Run(EMPTY, ops).cases| && Run(EMPTY, ops).cases[c].status == RECOVERED
    ensures var db := Run(EMPTY, ops);
      && APPROVED in db.cases[c].trail && VERIFYING in db.cases[c].trail
      && exists pay :: pay in db.payments
          && pay.currency == db.cases[c].currency && pay.amount == db.cases[c].amountRecovered
  {
    var db := Run(EMPTY, ops);
    ReachableInv(ops);
    OutcomesExact(ops, c);
    var trail := db.cases[c].trail;
    assert Tracked(db.cases[c]);
    ApprovedBeforeExecution(trail);
    TerminalOnlyLast(trail);
    assert trail[|trail| - 2] == VERIFYING;
    var o := db.outcomes[FindOutcome(db.outcomes, c).value];
    assert db.payments[o.settlingPayment] in db.payments;
  }

  /** Every history is a walk in the table plus the reassessment edge, ends in the current status, and is bounded
      by the number of attempts. */
  lemma HistoriesAreBoundedWalks(ops: seq<Op>, c: nat)
    requires c < |Run(EMPTY, ops).cases|
    ensures var k := Run(EMPTY, ops).cases[c];
      && Walk(k.trail) && k.trail[|k.trail| - 1] == k.status
      && (forall i | 0 <= i < |k.trail| - 1 :: !Terminal(k.trail[i]))
      && |k.trail| <= 10 * k.attemptCount + 21
  {
    ReachableInv(ops);
    TrackedIsBounded(Run(EMPTY, ops).cases[c]);
  }

  lemma TrackedIsBounded(k: Case)
    requires Tracked(k) && WithinBudget(k)
    ensures forall i | 0 <= i < |k.trail| - 1 :: !Terminal(k.trail[i])
    ensures |k.trail| <= 10 * k.attemptCount + 21
  {
    WalkLengthBounded(k.trail);
    TerminalOnlyLast(k.trail);
  }

  /** Between any two states of a run: a history is only extended, a terminal status stays, and a case that a
      reassessment sent back to DETECTED never recovers: its only way out is UNRECOVERABLE. */
  lemma HistoriesOnlyGrow(ops: seq<Op>, more: seq<Op>, c: nat)
    requires c < |Run(EMPTY, ops).cases|
    ensures c < |Run(Run(EMPTY, ops), more).cases|
    ensures var k, k' := Run(EMPTY, ops).cases[c], Run(Run(EMPTY, ops), more).cases[c];
      && SameIdentity(k, k') && k.trail <= k'.trail && k.attemptCount <= k'.attemptCount
      && (Terminal(k.status) ==> k'.status == k.status)
      && (k.status == DETECTED ==> k'.status in {DETECTED, UNRECOVERABLE})
  {
    ReachableInv(ops);
    RunKeepsInv(Run(EMPTY, ops), more);
    assert CaseEvolves(Run(EMPTY, ops).cases[c], Run(Run(EMPTY, ops), more).cases[c]);
  }

  /** A case counts its attempts; keys are unique; the ledger holds for each attempt one creation followed by one
      completion, which reads EXECUTION_FAILED exactly for the attempts that are FAILED; and a reminder reuses the
      gateway reference of an earlier payment link of its case. */
  lemma AttemptsExact(ops: seq<Op>)
    ensures var db := Run(EMPTY, ops);
      && (forall c | 0 <= c < |db.cases| :: db.cases[c].attemptCount == CountAttempts(db.attempts, c))
      && UniqueKeys(db.attempts)
      && (forall i | 0 <= i < |db.attempts| :: Told(db.attempts[i], AttemptTrail(db.ledger, i)))
      && (forall i | 0 <= i < |db.attempts| :: ReusesLink(db.attempts, i))
  {
    ReachableInv(ops);
  }

  /** Between any two states of a run an attempt keeps all it was, and its status moves only from ACKNOWLEDGED to
      SUCCEEDED; an order keeps its identity, and PAID stays PAID. */
  lemma AttemptsAndOrdersOnlyAdvance(ops: seq<Op>, more: seq<Op>, i: nat)
    ensures var db, db' := Run(EMPTY, ops), Run(Run(EMPTY, ops), more);
      && (i < |db.attempts| ==>
            && i < |db'.attempts| && db'.attempts[i] == db.attempts[i].(status := db'.attempts[i].status)
            && (db'.attempts[i].status != db.attempts[i].status ==>
                  db.attempts[i].status == ACKNOWLEDGED && db'.attempts[i].status == SUCCEEDED))
      && (i < |db.orders| ==> i < |db'.orders| && OrderEvolves(db.orders[i], db'.orders[i]))
  {
    ReachableInv(ops);
    RunKeepsInv(Run(EMPTY, ops), more);
    var db, db' := Run(EMPTY, ops), Run(Run(EMPTY, ops), more);
    if i < |db.attempts| {
      assert AttemptEvolves(db.attempts[i], db'.attempts[i]);
      assert Told(db.attempts[i], AttemptTrail(db.ledger, i));
    }
  }

  /** No lookup that expects at most one row ever sees two. */
  lemma SingleRowLookupsNeverRaise(ops: seq<Op>, merchant: nat, order: nat)
    ensures var db := Run(EMPTY, ops);
      && UniqueActive(db.cases)
      && !AmbiguousActive(db.cases, merchant, order) && !AmbiguousVerifiable(db.cases, order)
  {
    ReachableInv(ops);
    LookupsNeverAmbiguous(Run(EMPTY, ops), merchant, order);
  }

  // ---- How money moves in one step ----

  /** Status, history, money, attempts and estimates are as they were. */
  predicate Steady(c: Case, c': Case) {
    && c'.status == c.status && c'.trail == c.trail && c'.amountRecovered == c.amountRecovered
    && c'.attemptCount == c.attemptCount && c'.expectedValue == c.expectedValue
  }

  /** Outcome `k` is the case's, and the payment it names is captured, in the currency, and of the very amount. */
  predicate CreditedBy(db: Db, id: nat, k: nat, currency: string, amount: int) {
    && k < |db.outcomes| && db.outcomes[k].caseId == id && db.outcomes[k].amount == amount
    && db.outcomes[k].settlingPayment < |db.payments|
    && var pay := db.payments[db.outcomes[k].settlingPayment];
       pay.status == PayCaptured && pay.currency == currency && pay.amount == amount
  }

  /** The case is credited with the captured payment its outcome names, and RECOVERED where the table has a way. */
  predicate SettledCase(c: Case, id: nat, db: Db)
    requires id < |db.cases|
  {
    var c' := db.cases[id];
    && c.status != RECOVERED
    && c'.status == (if c.status in {EXECUTING, WAITING_EXTERNAL, VERIFYING} then RECOVERED else c.status)
    && c'.attemptCount == c.attemptCount && c'.expectedValue == c.expectedValue
    && exists k | 0 <= k < |db.outcomes| :: CreditedBy(db, id, k, c.currency, c'.amountRecovered)
  }

  predicate SettlesOnly(a: Db, b: Db) {
    && |a.cases| <= |b.cases|
    && forall i | 0 <= i < |a.cases| :: Steady(a.cases[i], b.cases[i]) || SettledCase(a.cases[i], i, b)
  }

  lemma VerifySettlesOnly(db: Db, caseId: nat, payId: nat, ref: string)
    requires caseId < |db.cases| && payId < |db.payments|
    ensures SettlesOnly(db, VerifyAndRecover(db, caseId, payId, ref).0)
  {
    VerifyEffect(db, caseId, payId, ref);
    var (db', verified) := VerifyAndRecover(db, caseId, payId, ref);
    var pay := db.payments[payId];
    RecoverStatus(db.cases[caseId], pay.amount);
    assert Recover(db.cases[caseId], pay.amount).expectedValue == db.cases[caseId].expectedValue;
    if db.cases[caseId].status != RECOVERED && verified {
      var existing := FindOutcome(db.outcomes, caseId);
      var k := if existing.Some? then existing.value else |db.outcomes|;
      assert CreditedBy(db', caseId, k, db.cases[caseId].currency, pay.amount);
    }
  }

  lemma CreateSettlesOnly(db: Db, merchant: nat, order: nat, payId: nat, p: Payload, now: int, staleMiss: bool)
    requires payId < |db.payments|
    ensures var r := CreateOrUpdateCase(db, merchant, order, payId, p, now, staleMiss);
      r.Commit? ==> SettlesOnly(db, r.db)
  {
    FirstActiveFound(db.cases, merchant, order);
  }

  lemma WebhookSettlesOnly(db: Db, merchant: nat, p: Payload, freshId: string)
    ensures var r := VerifyFromWebhook(db, merchant, p, freshId); r.Commit? ==> SettlesOnly(db, r.db)
  {
    FindOrderFound(db.orders, merchant, p.externalOrderId);
    var order := FindOrder(db.orders, merchant, p.externalOrderId);
    if order.Some? {
      FirstVerifiableFound(db.cases, order.value);
      SettlingPaymentValid(db, merchant, order.value, p, freshId);
      var c := FirstVerifiable(db.cases, order.value);
      if c.Some? {
        var (paid, payId) := SettlingPayment(db, merchant, order.value, p, freshId);
        VerifySettlesOnly(paid, c.value, payId, p.linkId);
      }
    }
  }

  lemma HandlingSettlesOnly(db: Db, merchant: nat, p: Payload, now: int, missed: Missed, freshId: string)
    ensures var r := HandleEvent(db, merchant, p, now, missed, freshId); r.Commit? ==> SettlesOnly(db, r.db)
  {
    SyncAllValid(db, merchant, p, missed.customer);
    var (synced, order, pay) := SyncAll(db, merchant, p, missed.customer);
    if IsFailureEvent(p) {
      CreateSettlesOnly(synced, merchant, order, pay, p, now, missed.active);
    } else if IsCaptureEvent(p) {
      WebhookSettlesOnly(synced, merchant, p, freshId);
    }
  }

  lemma MarkingKeepsSettlements(a: Db, b: Db, rawId: nat)
    requires SettlesOnly(a, b) && rawId < |b.events|
    ensures SettlesOnly(a, MarkProcessed(b, rawId))
  {
    forall i | 0 <= i < |a.cases| && SettledCase(a.cases[i], i, b)
      ensures SettledCase(a.cases[i], i, MarkProcessed(b, rawId)) {
      var k :| 0 <= k < |b.outcomes| && CreditedBy(b, i, k, a.cases[i].currency, b.cases[i].amountRecovered);
      assert CreditedBy(MarkProcessed(b, rawId), i, k, a.cases[i].currency, b.cases[i].amountRecovered);
    }
  }

  lemma SameCasesSettleNothing(a: Db, b: Db)
    requires b.cases == a.cases
    ensures SettlesOnly(a, b)
  {
  }

  /** A processed webhook is its handling, marked; or nothing happened to the cases. */
  lemma ProcessIsHandling(db: Db, rawId: nat, now: int, missed: Missed, freshId: string)
    ensures var r := ProcessRawWebhook(db, rawId, now, missed, freshId);
      r.Commit? ==> r.db.cases == db.cases || HandledAndMarked(db, r.db, rawId, now, missed, freshId)
  {
    if rawId < |db.events| && db.events[rawId].payload.Some? {
      var e := db.events[rawId];
      HandleEventKeepsEvents(db, e.merchant, e.payload.value, now, missed, freshId);
    }
  }

  predicate HandledAndMarked(db: Db, db': Db, rawId: nat, now: int, missed: Missed, freshId: string) {
    && rawId < |db.events| && db.events[rawId].payload.Some?
    && var h := HandleEvent(db, db.events[rawId].merchant, db.events[rawId].payload.value, now, missed, freshId);
       h.Commit? && h.db.events == db.events && db' == MarkProcessed(h.db, rawId)
  }

  lemma HandledSettlesOnly(db: Db, db': Db, rawId: nat, now: int, missed: Missed, freshId: string)
    requires HandledAndMarked(db, db', rawId, now, missed, freshId)
    ensures SettlesOnly(db, db')
  {
    var e := db.events[rawId];
    HandlingSettlesOnly(db, e.merchant, e.payload.value, now, missed, freshId);
    MarkingKeepsSettlements(db, HandleEvent(db, e.merchant, e.payload.value, now, missed, freshId).db, rawId);
  }

  lemma ProcessSettlesOnly(db: Db, rawId: nat, now: int, missed: Missed, freshId: string)
    ensures var r := ProcessRawWebhook(db, rawId, now, missed, freshId); r.Commit? ==> SettlesOnly(db, r.db)
  {
    ProcessIsHandling(db, rawId, now, missed, freshId);
    var r := ProcessRawWebhook(db, rawId, now, missed, freshId);
    if r.Commit? {
      if r.db.cases == db.cases {
        SameCasesSettleNothing(db, r.db);
      } else {
        HandledSettlesOnly(db, r.db, rawId, now, missed, freshId);
      }
    }
  }

  lemma PollSettlesOnly(db: Db, c: nat, merchantExists: bool, linkPaid: bool, freshId: string)
    ensures var r := PollAndReconcile(db, c, merchantExists, linkPaid, freshId); r.Commit? ==> SettlesOnly(db, r.db)
  {
    PollEffect(db, c, merchantExists, linkPaid, freshId);
    var r := PollAndReconcile(db, c, merchantExists, linkPaid, freshId);
    if r.Commit? && r.db != db {
      var paid: Db, ref: string :| PaidAndVerified(db, paid, c, ref, r.db);
      VerifySettlesOnly(paid, c, |db.payments|, ref);
    }
  }

  /** Processing a webhook and polling only ever settle cases; they move no status any other way. */
  lemma DeliveriesSettleOnly(db: Db, op: Op)
    requires op.Process? || op.Poll? || op.Ingest?
    ensures SettlesOnly(db, Apply(db, op))
  {
    match op {
      case Process(rawId, now, missed, freshId) => ProcessSettlesOnly(db, rawId, now, missed, freshId);
      case Poll(c, merchantExists, linkPaid, freshId) => PollSettlesOnly(db, c, merchantExists, linkPaid, freshId);
      case Ingest(_, _, _) =>
    }
  }

  lemma OtherOpsAreQuiet(db: Db, op: Op)
    requires op.Decide? || op.DecideWithAi? || op.Execute? || op.ReassessAll?
    ensures Quiet(db, Apply(db, op))
  {
    EvolvesReflexive(db);
    match op {
      case Decide(c, ctx, p, model, now) =>
        if c < |db.cases| { CaseDecisionIsQuiet(db, c, ctx, p, model, now); }
      case DecideWithAi(c, ctx, p, model, now, reply) =>
        if c < |db.cases| { AiDecisionIsQuiet(db, c, ctx, p, model, now, reply); }
      case Execute(c, _, _, _, env, now, dispatchedAt) =>
        if c < |db.cases| {
          var cmd := CommandOf(db, op);
          ExecuteEffect(db, cmd, env, now, dispatchedAt);
          var t := ExecuteCommand(db, cmd, env, now, dispatchedAt);
          if t.Commit? && !t.value.isDuplicate {
            ExecutorTargets(db, cmd, env);
            ExecutedIsQuiet(db, t.db, cmd, RunExecutor(db, cmd, env).value, now, dispatchedAt);
          }
        }
      case ReassessAll(now) => ReassessScheduledEffect(db, now);
    }
  }

  /** A step that changes a case's recovered amount, or makes it RECOVERED, is a webhook or a poll that credits a
      captured payment in the case's currency to a case not yet RECOVERED. */
  lemma MoneyMovesOnlyBySettlement(db: Db, op: Op, c: nat)
    requires c < |db.cases|
    ensures c < |Apply(db, op).cases|
    ensures var db' := Apply(db, op);
      || Unsettled(db.cases[c], db'.cases[c])
      || ((op.Process? || op.Poll?) && SettledCase(db.cases[c], c, db'))
  {
    if op.Process? || op.Poll? || op.Ingest? {
      DeliveriesSettleOnly(db, op);
    } else {
      OtherOpsAreQuiet(db, op);
    }
  }

  /** RECOVERED is entered only from EXECUTING, WAITING_EXTERNAL or VERIFYING, after an approval, by a webhook or a
      poll; and the case's one outcome names a captured payment in its currency and of the recovered amount. */
  lemma EnteringRecovered(ops: seq<Op>, op: Op, c: nat)
    requires c < |Run(EMPTY, ops).cases| && Run(EMPTY, ops).cases[c].status != RECOVERED
    requires c < |Apply(Run(EMPTY, ops), op).cases| && Apply(Run(EMPTY, ops), op).cases[c].status == RECOVERED
    ensures var db, db' := Run(EMPTY, ops), Apply(Run(EMPTY, ops), op);
      && (op.Process? || op.Poll?)
      && db.cases[c].status in {EXECUTING, WAITING_EXTERNAL, VERIFYING} && APPROVED in db.cases[c].trail
      && FindOutcome(db'.outcomes, c).Some?
      && CreditedBy(db', c, FindOutcome(db'.outcomes, c).value, db.cases[c].currency, db'.cases[c].amountRecovered)
  {
    var db, db' := Run(EMPTY, ops), Apply(Run(EMPTY, ops), op);
    ReachableSound(ops, op);
    MoneyMovesOnlyBySettlement(db, op, c);
    assert Tracked(db.cases[c]);
    ApprovedBeforeExecution(db.cases[c].trail);
    var k :| 0 <= k < |db'.outcomes| && CreditedBy(db', c, k, db.cases[c].currency, db'.cases[c].amountRecovered);
    OneOutcomeFound(db'.outcomes, c, k);
  }

  lemma ReachableSound(ops: seq<Op>, op: Op)
    ensures CasesSound(Run(EMPTY, ops).cases) && OneOutcomePerCase(Apply(Run(EMPTY, ops), op).outcomes)
  {
    ReachableInv(ops);
    StepKeepsInv(Run(EMPTY, ops), op);
  }

  lemma OneOutcomeFound(outcomes: seq<Outcome>, c: nat, k: nat)
    requires OneOutcomePerCase(outcomes) && k < |outcomes| && outcomes[k].caseId == c
    ensures FindOutcome(outcomes, c) == Some(k)
  {
    FindOutcomeFound(outcomes, c);
    var i := FindOutcome(outcomes, c).value;
    assert outcomes[i].caseId == outcomes[k].caseId;
  }

  /** Once RECOVERED, the recovered amount never changes again. */
  lemma {:induction false} RecoveredAmountIsFinal(db: Db, ops: seq<Op>, c: nat)
    requires Inv(db) && c < |db.cases| && db.cases[c].status == RECOVERED
    ensures c < |Run(db, ops).cases| && Run(db, ops).cases[c].status == RECOVERED
    ensures Run(db, ops).cases[c].amountRecovered == db.cases[c].amountRecovered
    decreases |ops|
  {
    if ops != [] {
      StepKeepsInv(db, ops[0]);
      MoneyMovesOnlyBySettlement(db, ops[0], c);
      assert CaseEvolves(db.cases[c], Apply(db, ops[0]).cases[c]);
      RecoveredAmountIsFinal(Apply(db, ops[0]), ops[1..], c);
    }
  }

  // ---- Cases that get stuck ----

  /** An approved case sent to wait is taken up again exactly by a reassessment run at or after its delay, thirty
      minutes when the command names none, and lands in DETECTED. */
  lemma WaitEndsExactlyAtItsDelay(db: Db, cmd: Command, env: Env, now: int, dispatchedAt: int, later: int)
    requires cmd.caseId < |db.cases| && db.cases[cmd.caseId].status == APPROVED && cmd.action == WAIT_AND_REASSESS
    requires FindAttempt(db.attempts, cmd.key).None?
    ensures var t := ExecuteCommand(db, cmd, env, now, dispatchedAt);
      var delay := if cmd.payload.delaySeconds in {None, Some(0)} then 30 * 60 else cmd.payload.delaySeconds.value;
      && t.Commit? && |t.db.cases| == |db.cases| && t.db.cases[cmd.caseId].status == WAITING_EXTERNAL
      && ReassessScheduled(t.db, later).cases[cmd.caseId].status ==
           if later >= dispatchedAt + delay * MICROS_PER_SECOND then DETECTED else WAITING_EXTERNAL
  {
    var t := ExecuteCommand(db, cmd, env, now, dispatchedAt);
    assert t.db.cases[cmd.caseId]
        == AfterExecution(db.cases[cmd.caseId], cmd, RunExecutor(db, cmd, env).value, now, dispatchedAt);
  }

  predicate Decides(op: Op, c: nat) {
    (op.Decide? || op.DecideWithAi?) && op.caseId == c
  }

  /** A decision leaves every other case alone, and does nothing at all for a case it cannot read. */
  lemma DecisionsKeepToTheirCase(db: Db, op: Op, c: nat)
    requires (op.Decide? || op.DecideWithAi?) && c < |db.cases|
    requires op.caseId == c ==> !SnapshotOk(db.cases[c])
    ensures c < |Apply(db, op).cases| && Apply(db, op).cases[c] == db.cases[c]
    ensures op.caseId == c ==> Apply(db, op) == db
  {
    if op.Decide? && op.caseId < |db.cases| {
      CaseDecisionConcludes(db, op.caseId, op.ctx, op.policy, op.model, op.now);
    } else if op.DecideWithAi? && op.caseId < |db.cases| {
      AiDecisionConcludes(db, op.caseId, op.ctx, op.policy, op.model, op.now, op.reply);
    }
  }

  /** A step that does not decide an escalated case executes nothing for it and leaves it escalated. */
  lemma EscalatedStep(db: Db, op: Op, c: nat)
    requires c < |db.cases| && db.cases[c].status == ESCALATED && !Decides(op, c)
    ensures c < |Apply(db, op).cases|
    ensures Apply(db, op).cases[c].status == ESCALATED
    ensures Apply(db, op).cases[c].attemptCount == db.cases[c].attemptCount
  {
    if op.Process? || op.Poll? || op.Ingest? {
      DeliveriesSettleOnly(db, op);
    } else if op.Decide? || op.DecideWithAi? {
      DecisionsKeepToTheirCase(db, op, c);
    }
  }

  /** Until it is decided again an escalated case runs no command at all, its own HUMAN_ESCALATION included. */
  lemma {:induction false} EscalatedCasesNeverExecute(db: Db, ops: seq<Op>, c: nat)
    requires c < |db.cases| && db.cases[c].status == ESCALATED
    requires forall op | op in ops :: !Decides(op, c)
    ensures c < |Run(db, ops).cases| && Run(db, ops).cases[c].status == ESCALATED
    ensures Run(db, ops).cases[c].attemptCount == db.cases[c].attemptCount
    decreases |ops|
  {
    if ops != [] {
      EscalatedStep(db, ops[0], c);
      EscalatedCasesNeverExecute(Apply(db, ops[0]), ops[1..], c);
    }
  }

  lemma UnreadableStep(db: Db, op: Op, c: nat)
    requires c < |db.cases| && db.cases[c].expectedValue.Some? && db.cases[c].expectedValue.value < 0
    ensures c < |Apply(db, op).cases|
    ensures Apply(db, op).cases[c].expectedValue == db.cases[c].expectedValue
    ensures Decides(op, c) ==> Apply(db, op) == db
  {
    if op.Process? || op.Poll? || op.Ingest? {
      DeliveriesSettleOnly(db, op);
    } else if op.Decide? || op.DecideWithAi? {
      DecisionsKeepToTheirCase(db, op, c);
    }
  }

  /** A negative estimate is for ever: no later decision on that case ever commits. */
  lemma {:induction false} NegativeEstimateBlocksDecisions(db: Db, ops: seq<Op>, c: nat, op: Op)
    requires c < |db.cases| && db.cases[c].expectedValue.Some? && db.cases[c].expectedValue.value < 0
    requires Decides(op, c)
    ensures c < |Run(db, ops).cases| && Run(db, ops).cases[c].expectedValue == db.cases[c].expectedValue
    ensures Apply(Run(db, ops), op) == Run(db, ops)
    decreases |ops|
  {
    if ops == [] {
      UnreadableStep(db, op, c);
    } else {
      UnreadableStep(db, ops[0], c);
      NegativeEstimateBlocksDecisions(Apply(db, ops[0]), ops[1..], c, op);
    }
  }
}
