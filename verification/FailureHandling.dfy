/** What a failure's task writes about its order's case, and what a fraud block then stops. */
module FailureHandling {
  import opened Domain
  import opened Tables
  import opened Decision
  import opened Services
  import opened Effects
  import opened Invariants
  import opened Runs
  import opened Interleaving
  import opened WebhookRecovery
  import opened Settlements
  import opened LateFailures
  import opened CommandedRuns

  predicate Failure(p: Payload) {
    p.eventType == "payment.failed" || p.status == "failed"
  }

  /** The active case of the order that the event is about. */
  predicate ActiveCase(db: Db, m: nat, p: Payload, c: nat) {
    && c < |db.cases| && db.cases[c].merchant == m && FindOrder(db.orders, m, OrderKey(p)) == Some(db.cases[c].order)
    && db.cases[c].status !in {RECOVERED, UNRECOVERABLE, EXPIRED, STOPPED}
  }

  /** Nothing but cases and their ledger entry changed besides the synchronised rows and the event's flag. */
  predicate CasesOnly(db: Db, after: Db, entry: Audit) {
    && after.attempts == db.attempts && after.outcomes == db.outcomes && after.decisions == db.decisions
    && after.ledger == db.ledger + [entry]
  }

  /** The active case takes the failure's payment and diagnostics, and keeps every other field. */
  predicate Appended(db: Db, after: Db, m: nat, p: Payload, c: nat)
    requires c < |db.cases|
  {
    && after.cases == db.cases[c := db.cases[c].(
         initialPayment := PaidRow(db, m, p), category := Some(p.category), isTransient := p.isTransient,
         diagnosis := p.diagnosis)]
    && CasesOnly(db, after, Audit(m, CaseEntity(c), FailureAppended, SystemActor("case-creation-service")))
  }

  const HOUR: int := 3600000000

  /** The new case has the payment's amount and currency, the event's diagnostics, and 72 hours. */
  predicate OpenedFor(db: Db, after: Db, m: nat, p: Payload, now: int) {
    && |after.cases| == |db.cases| + 1
    && FindOrder(after.orders, m, OrderKey(p)).Some?
    && after.cases == db.cases + [Case(
         m, FindOrder(after.orders, m, OrderKey(p)).value, PaidRow(db, m, p), PaidAmount(db, m, p), 0, PaidIn(db, m, p),
         DIAGNOSING, [DETECTED, ENRICHING, DIAGNOSING], Some(p.category), p.isTransient, p.diagnosis, None, None, None,
         0, 2, now + 72 * HOUR, None, None, false)]
    && CasesOnly(db, after, Audit(m, CaseEntity(|db.cases|), CaseCreated, SystemActor("case-creation-service")))
  }

  // ---- One task ----

  lemma ActiveCaseIsFound(db: Db, m: nat, p: Payload, c: nat)
    requires UniqueActive(db.cases)
    ensures ActiveCase(db, m, p, c) <==>
      var order := FindOrder(db.orders, m, OrderKey(p));
      order.Some? && FirstActive(db.cases, m, order.value) == Some(c)
  {
    var order := FindOrder(db.orders, m, OrderKey(p));
    if order.Some? {
      FirstActiveFound(db.cases, m, order.value);
      var f := FirstActive(db.cases, m, order.value);
      if f.Some? && c < |db.cases| && f.value != c {
        assert ActiveFor(db.cases[f.value], m, order.value);
      }
    }
  }

  lemma CreationAppends(db: Db, m: nat, order: nat, payId: nat, p: Payload, now: int, c: nat)
    requires payId < |db.payments| && UniqueActive(db.cases) && FirstActive(db.cases, m, order) == Some(c)
    ensures c < |db.cases|
    ensures var r := CreateOrUpdateCase(db, m, order, payId, p, now, false);
      && r.Commit?
      && r.db == db.(
           cases := db.cases[c := db.cases[c].(
             initialPayment := payId, category := Some(p.category), isTransient := p.isTransient,
             diagnosis := p.diagnosis)],
           ledger := db.ledger + [Audit(m, CaseEntity(c), FailureAppended, SystemActor("case-creation-service"))])
  {
    FirstActiveFound(db.cases, m, order);
  }

  lemma CreationOpens(db: Db, m: nat, order: nat, payId: nat, p: Payload, now: int, staleMiss: bool)
    requires payId < |db.payments| && FirstActive(db.cases, m, order).None?
    ensures var r := CreateOrUpdateCase(db, m, order, payId, p, now, staleMiss);
      && r.Commit?
      && r.db == db.(
           cases := db.cases + [Case(
             m, order, payId, db.payments[payId].amount, 0, db.payments[payId].currency, DIAGNOSING,
             [DETECTED, ENRICHING, DIAGNOSING], Some(p.category), p.isTransient, p.diagnosis, None, None, None,
             0, 2, now + 72 * HOUR, None, None, false)],
           ledger := db.ledger
             + [Audit(m, CaseEntity(|db.cases|), CaseCreated, SystemActor("case-creation-service"))])
  {
    FirstActiveFound(db.cases, m, order);
    assert [DETECTED] + [ENRICHING] + [DIAGNOSING] == [DETECTED, ENRICHING, DIAGNOSING];
  }

  lemma SyncFindsRows(db: Db, m: nat, p: Payload, read: CustomerRead)
    ensures var (synced, order, pay) := SyncAll(db, m, p, read);
      && FindOrder(synced.orders, m, OrderKey(p)) == Some(order) && pay == PaidRow(db, m, p)
      && pay < |synced.payments|
      && synced.payments[pay].amount == PaidAmount(db, m, p) && synced.payments[pay].currency == PaidIn(db, m, p)
  {
    SyncAllValid(db, m, p, read);
    SyncEndsOn(db, m, p, read);
    SyncKeepsAmount(db, m, p, read);
    FindPaymentFound(db.payments, m, p.externalPaymentId);
  }

  lemma HandlingAppends(db: Db, m: nat, p: Payload, now: int, missed: Missed, freshId: string, c: nat)
    requires Core(db) && Failure(p) && ActiveCase(db, m, p, c)
    ensures var r := HandleEvent(db, m, p, now, missed, freshId);
      if missed.active then r.Abort? else r.Commit? && Appended(db, r.db, m, p, c)
  {
    SyncAllValid(db, m, p, missed.customer);
    SyncFindsRows(db, m, p, missed.customer);
    ActiveCaseIsFound(db, m, p, c);
    SyncedOrder(db, m, p, missed.customer);
    var (synced, order, pay) := SyncAll(db, m, p, missed.customer);
    FirstActiveFound(synced.cases, m, order);
    if !missed.active { CreationAppends(synced, m, order, pay, p, now, c); }
  }

  lemma HandlingOpensFor(db: Db, m: nat, p: Payload, now: int, missed: Missed, freshId: string)
    requires Core(db) && Failure(p) && NoActiveCase(db, m, p)
    ensures var r := HandleEvent(db, m, p, now, missed, freshId); r.Commit? && OpenedFor(db, r.db, m, p, now)
  {
    SyncAllValid(db, m, p, missed.customer);
    SyncFindsRows(db, m, p, missed.customer);
    NoActiveAfterSync(db, m, p, missed.customer);
    var (synced, order, pay) := SyncAll(db, m, p, missed.customer);
    CreationOpens(synced, m, order, pay, p, now, missed.active);
  }

  // ---- Every failure ----

  /** A failure of an order with an active case gives that case the event's payment, category, transient flag and
      diagnosis and changes no other field of any case, or aborts when its look had missed the case; one of an order
      without opens a case with the payment's amount and currency, the event's diagnostics and 72 hours. */
  lemma FailureWritesExactly(db: Db, op: Op)
    requires Core(db) && Proceeds(db, op) && Failure(db.events[op.rawId].payload.value)
    ensures var m, p := db.events[op.rawId].merchant, db.events[op.rawId].payload.value;
      && (forall c | ActiveCase(db, m, p, c) ::
            if op.missed.active then Apply(db, op) == db else Appended(db, Apply(db, op), m, p, c))
      && ((forall c :: !ActiveCase(db, m, p, c)) ==> OpenedFor(db, Apply(db, op), m, p, op.now))
  {
    var m, p := db.events[op.rawId].merchant, db.events[op.rawId].payload.value;
    HandleEventKeepsEvents(db, m, p, op.now, op.missed, op.freshId);
    forall c | ActiveCase(db, m, p, c)
      ensures if op.missed.active then Apply(db, op) == db else Appended(db, Apply(db, op), m, p, c)
    {
      HandlingAppends(db, m, p, op.now, op.missed, op.freshId, c);
    }
    if forall c :: !ActiveCase(db, m, p, c) {
      NoActiveExactly(db, m, p);
      HandlingOpensFor(db, m, p, op.now, op.missed, op.freshId);
    }
  }

  lemma NoActiveExactly(db: Db, m: nat, p: Payload)
    requires UniqueActive(db.cases)
    ensures NoActiveCase(db, m, p) <==> forall c :: !ActiveCase(db, m, p, c)
  {
    var order := FindOrder(db.orders, m, OrderKey(p));
    if order.Some? {
      var f := FirstActive(db.cases, m, order.value);
      if f.Some? { ActiveCaseIsFound(db, m, p, f.value); }
      forall c | ActiveCase(db, m, p, c) ensures f.Some? { ActiveCaseIsFound(db, m, p, c); }
    }
  }

  // ---- A fraud block ----

  /** The call appends a failure to the case. */
  predicate AppendsTo(db: Db, op: Op, c: nat) {
    && Proceeds(db, op) && !op.missed.active && Failure(db.events[op.rawId].payload.value)
    && ActiveCase(db, db.events[op.rawId].merchant, db.events[op.rawId].payload.value, c)
  }

  lemma PaymentKeepsCategory(db: Db, after: Db, m: nat, p: Payload, paidTo: nat, c: nat)
    requires paidTo < |db.cases| && PaidInto(db, after, m, p, paidTo) && c < |db.cases|
    ensures c < |after.cases| && after.cases[c].category == db.cases[c].category
  {
    var paid: Db :|
      && Prepared(db, paid, m, p)
      && if PaidIn(db, m, p) == db.cases[paidTo].currency
         then SettlementWritten(paid, after, paidTo, PaidRow(db, m, p), p.linkId)
         else after == paid;
    if PaidIn(db, m, p) == db.cases[paidTo].currency {
      var k, at :| Credited(paid.attempts, paidTo, p.linkId, k)
        && Written(paid, after, paidTo, PaidRow(db, m, p), k, at);
    }
  }

  lemma SuccessKeepsCategory(db: Db, op: Op, c: nat)
    requires Core(db) && c < |db.cases| && Proceeds(db, op) && !Failure(db.events[op.rawId].payload.value)
    ensures c < |Apply(db, op).cases| && Apply(db, op).cases[c].category == db.cases[c].category
  {
    var m, p := db.events[op.rawId].merchant, db.events[op.rawId].payload.value;
    WebhookSettlesExactly(db, op);
    if paidTo :| PutTo(db, m, p, paidTo) {
      var after: Db :| PaidInto(db, after, m, p, paidTo) && op.rawId < |after.events|
        && Apply(db, op) == after.(events := after.events[op.rawId := after.events[op.rawId].(processed := true)]);
      PaymentKeepsCategory(db, after, m, p, paidTo, c);
    }
  }

  /** A webhook changes a case's category only by appending a failure to it. */
  lemma WebhookKeepsCategory(db: Db, op: Op, c: nat)
    requires Core(db) && op.Process? && c < |db.cases| && !AppendsTo(db, op, c)
    ensures c < |Apply(db, op).cases| && Apply(db, op).cases[c].category == db.cases[c].category
  {
    if Proceeds(db, op) {
      var m, p := db.events[op.rawId].merchant, db.events[op.rawId].payload.value;
      if Failure(p) {
        FailureWritesExactly(db, op);
        if other :| ActiveCase(db, m, p, other) {
          assert other != c || op.missed.active;
        }
      } else {
        SuccessKeepsCategory(db, op, c);
      }
    }
  }

  lemma PollKeepsCategory(db: Db, op: Op, c: nat)
    requires op.Poll? && c < |db.cases|
    ensures c < |Apply(db, op).cases| && Apply(db, op).cases[c].category == db.cases[c].category
  {
    PollWritesExactly(db, op);
    if PollFindsPaid(db, op) && db.cases[op.caseId].status != RECOVERED {
      var booked: Db, i: nat :|
        && PollBooks(db, booked, op.caseId) && NewestPollable(db.attempts, op.caseId, i)
        && SettlementWritten(booked, Apply(db, op), op.caseId, |db.payments|, db.attempts[i].gatewayRef.value);
      var k, at :| Credited(booked.attempts, op.caseId, db.attempts[i].gatewayRef.value, k)
        && Written(booked, Apply(db, op), op.caseId, |db.payments|, k, at);
    }
  }

  lemma ServedKeepsCategory(
    db: Db, t: Txn<DecisionValue>, id: nat, ctx: Context, p: Policy, model: Model, now: int, proposed: ActionType,
    audit: AuditAction, actor: Actor, c: nat)
    requires id < |db.cases| && Rankings(model, db.cases[id], ctx, p) != [] && t.Commit? && c < |db.cases|
    requires Served(db, t, id, ctx, p, model, now, proposed, audit, actor)
    ensures c < |t.db.cases| && t.db.cases[c].category == db.cases[c].category
  {
  }

  lemma DecisionKeepsCategory(db: Db, op: Op, c: nat)
    requires (op.Decide? || op.DecideWithAi?) && c < |db.cases|
    ensures c < |Apply(db, op).cases| && Apply(db, op).cases[c].category == db.cases[c].category
  {
    if op.caseId < |db.cases| {
      var id, ctx, p, model, now := op.caseId, op.ctx, op.policy, op.model, op.now;
      if op.Decide? {
        CaseDecisionConcludes(db, id, ctx, p, model, now);
        var t := EvaluateCaseDecision(db, id, ctx, p, model, now);
        if t.Commit? {
          ServedKeepsCategory(db, t, id, ctx, p, model, now, Rankings(model, db.cases[id], ctx, p)[0].action,
            DecisionEvaluated, POLICY_ENGINE, c);
        }
      } else {
        AiDecisionConcludes(db, id, ctx, p, model, now, op.reply);
        var t := EvaluateWithAi(db, id, ctx, p, model, now, op.reply);
        if t.Commit? {
          ServedKeepsCategory(db, t, id, ctx, p, model, now, Proposed(op.reply, model, db.cases[id], ctx, p),
            AiDecisionEvaluated, t.db.ledger[|db.ledger|].actor, c);
        }
      }
    }
  }

  /** No call but a failure appended to a case changes its category. */
  lemma StepKeepsCategory(db: Db, op: Op, c: nat)
    requires Core(db) && c < |db.cases| && !AppendsTo(db, op, c)
    ensures c < |Apply(db, op).cases| && Apply(db, op).cases[c].category == db.cases[c].category
  {
    match op {
      case Process(_, _, _, _) => WebhookKeepsCategory(db, op, c);
      case Poll(_, _, _, _) => PollKeepsCategory(db, op, c);
      case Decide(_, _, _, _, _) => DecisionKeepsCategory(db, op, c);
      case DecideWithAi(_, _, _, _, _, _) => DecisionKeepsCategory(db, op, c);
      case Ingest(_, _, _) =>
      case Execute(id, _, _, _, env, now, dispatchedAt) =>
        if id < |db.cases| { ExecuteEffect(db, CommandOf(db, op), env, now, dispatchedAt); }
      case ReassessAll(_) =>
    }
  }

  /** No call in the run appends a failure to the case. */
  predicate NoFailureFor(db: Db, ops: seq<Op>, c: nat)
    decreases |ops|
  {
    ops == [] || (!AppendsTo(db, ops[0], c) && NoFailureFor(Apply(db, ops[0]), ops[1..], c))
  }

  lemma {:induction false} RunKeepsCategory(db: Db, ops: seq<Op>, c: nat)
    requires Inv(db) && c < |db.cases| && NoFailureFor(db, ops, c)
    ensures c < |Run(db, ops).cases| && Run(db, ops).cases[c].category == db.cases[c].category
    decreases |ops|
  {
    if ops != [] {
      StepKeepsInv(db, ops[0]);
      StepKeepsCategory(db, ops[0], c);
      RunKeepsCategory(Apply(db, ops[0]), ops[1..], c);
    }
  }

  /** Once a failure blocked for fraud is appended to a case, no decision on it hands out a command to contact the
      customer until the next failure, whatever the AI replies and whatever runs in between. */
  lemma FraudBlockStopsContacts(db: Db, failure: Op, ops: seq<Op>, decision: Op, c: nat)
    requires Inv(db) && AppendsTo(db, failure, c)
    requires db.events[failure.rawId].payload.value.category == FRAUD_RISK_BLOCK
    requires NoFailureFor(Apply(db, failure), ops, c)
    requires (decision.Decide? || decision.DecideWithAi?) && decision.caseId == c
    ensures var before := Run(Apply(db, failure), ops);
      var after := Apply(before, decision);
      |after.decisions| > |before.decisions| ==> !Contacts(after.decisions[|before.decisions|].authorized)
  {
    FailureWritesExactly(db, failure);
    StepKeepsInv(db, failure);
    RunKeepsCategory(Apply(db, failure), ops, c);
    var before := Run(Apply(db, failure), ops);
    if |Apply(before, decision).decisions| > |before.decisions| {
      NewRowIsGated(before, decision);
      DecisionsAddRows(before, decision);
    }
  }
}
