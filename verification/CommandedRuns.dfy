/**
 Runs that execute only commands handed out by earlier decisions, in any order and any number of times: where each
 contact with a customer comes from, and how many there can be.
 */
module CommandedRuns {
  import opened Domain
  import opened StateMachine
  import opened Tables
  import opened Decision
  import opened Services
  import opened Lifecycle
  import opened Effects
  import opened Invariants
  import opened Runs
  import opened Histories
  import opened WebhookRecovery
  import opened Scenarios
  import DecisionOutcomes

  /** The decision handed out a command. */
  predicate Commands(row: DecisionRow) {
    row.authorized != DO_NOTHING && row.verdict != VerdictRejected
  }

  /** The row's command is this one. */
  predicate CommandIs(row: DecisionRow, caseId: nat, number: nat, a: ActionType) {
    Commands(row) && row.caseId == caseId && row.attemptNumber == number && row.authorized == a
  }

  /** An executed command was handed out by a decision on record. */
  predicate HandedOut(db: Db, op: Op) {
    op.Execute? ==> exists k | 0 <= k < |db.decisions| :: CommandIs(db.decisions[k], op.caseId, op.number, op.action)
  }

  predicate Commanded(ops: seq<Op>) {
    forall k | 0 <= k < |ops| :: HandedOut(Run(EMPTY, ops[..k]), ops[k])
  }

  // ---- The invariant of such runs ----

  predicate Decidable(s: CaseStatus) {
    s in {ENRICHING, DIAGNOSING, STRATEGY_GENERATED, POLICY_CHECK_PENDING, ESCALATED}
  }

  /** A command other than calling in a person. */
  predicate Intervenes(row: DecisionRow) {
    Commands(row) && row.authorized != HUMAN_ESCALATION
  }

  /** Only a case without attempts can be decided, and till then nothing was commanded but to call in a person. */
  predicate DecidableFresh(db: Db) {
    && (forall i | 0 <= i < |db.cases| && Decidable(db.cases[i].status) :: db.cases[i].attemptCount == 0)
    && forall i, k | 0 <= i < |db.cases| && 0 <= k < |db.decisions| && db.decisions[k].caseId == i ::
         Decidable(db.cases[i].status) && Commands(db.decisions[k]) ==>
           db.cases[i].status == ESCALATED && db.decisions[k].authorized == HUMAN_ESCALATION
  }

  predicate RowsNumbered(db: Db) {
    forall k | 0 <= k < |db.decisions| :: db.decisions[k].caseId < |db.cases| && db.decisions[k].attemptNumber == 1
  }

  predicate OneIntervention(rows: seq<DecisionRow>) {
    forall k, l | 0 <= k < l < |rows| && rows[k].caseId == rows[l].caseId ::
      !(Intervenes(rows[k]) && Intervenes(rows[l]))
  }

  predicate Attempted(attempts: seq<Attempt>, row: DecisionRow) {
    exists j | 0 <= j < |attempts| :: attempts[j].key == CommandKey(row.caseId, 1, row.authorized)
  }

  /** A case waits only once its intervention was attempted, and is never left half verified. */
  predicate WaitingAttempted(db: Db) {
    && (forall i | 0 <= i < |db.cases| :: db.cases[i].status != VERIFYING)
    && forall i, k | 0 <= i < |db.cases| && 0 <= k < |db.decisions| && db.decisions[k].caseId == i ::
         db.cases[i].status == WAITING_EXTERNAL && Intervenes(db.decisions[k]) ==>
           Attempted(db.attempts, db.decisions[k])
  }

  predicate ComesFrom(a: Attempt, row: DecisionRow) {
    CommandIs(row, a.caseId, 1, a.action) && a.key == CommandKey(a.caseId, 1, a.action)
  }

  predicate Sourced(rows: seq<DecisionRow>, a: Attempt) {
    exists k | 0 <= k < |rows| :: ComesFrom(a, rows[k])
  }

  predicate AttemptsCommanded(db: Db) {
    forall j | 0 <= j < |db.attempts| :: Sourced(db.decisions, db.attempts[j])
  }

  predicate RemindersFailed(attempts: seq<Attempt>) {
    forall j | 0 <= j < |attempts| && attempts[j].action == CUSTOMER_REMINDER :: attempts[j].status == FAILED
  }

  predicate Plan(db: Db) {
    && RowsNumbered(db) && DecidableFresh(db) && OneIntervention(db.decisions) && WaitingAttempted(db)
    && AttemptsCommanded(db) && RemindersFailed(db.attempts)
  }

  // ---- Calls that neither decide nor execute ----

  /** No decision, no attempt; a case keeps its status, or is recovered or sent back, and new ones are fresh. */
  predicate Idle(a: Db, b: Db) {
    && b.decisions == a.decisions && |b.attempts| == |a.attempts| && AttemptsEvolve(a.attempts, b.attempts)
    && |a.cases| <= |b.cases|
    && (forall i | 0 <= i < |a.cases| ::
          b.cases[i].attemptCount == a.cases[i].attemptCount
          && (b.cases[i].status == a.cases[i].status || b.cases[i].status in {RECOVERED, DETECTED}))
    && forall i | |a.cases| <= i < |b.cases| :: b.cases[i].status == DIAGNOSING && b.cases[i].attemptCount == 0
  }

  lemma IdleKeepsAttempts(a: Db, b: Db)
    requires Idle(a, b)
    ensures AttemptsCommanded(a) ==> AttemptsCommanded(b)
    ensures RemindersFailed(a.attempts) ==> RemindersFailed(b.attempts)
    ensures forall row :: Attempted(a.attempts, row) ==> Attempted(b.attempts, row)
  {
    assert forall j | 0 <= j < |a.attempts| :: AttemptEvolves(a.attempts[j], b.attempts[j]);
    forall row | Attempted(a.attempts, row) ensures Attempted(b.attempts, row) {
      var j :| 0 <= j < |a.attempts| && a.attempts[j].key == CommandKey(row.caseId, 1, row.authorized);
      assert b.attempts[j].key == a.attempts[j].key;
    }
    if AttemptsCommanded(a) {
      forall j | 0 <= j < |b.attempts| ensures Sourced(b.decisions, b.attempts[j]) {
        assert Sourced(a.decisions, a.attempts[j]);
        var k :| 0 <= k < |a.decisions| && ComesFrom(a.attempts[j], a.decisions[k]);
        assert ComesFrom(b.attempts[j], b.decisions[k]);
      }
    }
  }

  lemma IdleKeepsPlan(a: Db, b: Db)
    requires Plan(a) && Idle(a, b)
    ensures Plan(b)
  {
    IdleKeepsAttempts(a, b);
  }

  lemma VerifyKeepsRows(db: Db, caseId: nat, payId: nat, ref: string)
    requires caseId < |db.cases| && payId < |db.payments|
    ensures var after := VerifyAndRecover(db, caseId, payId, ref).0;
      after.decisions == db.decisions && |after.attempts| == |db.attempts|
  {
    VerifyEffect(db, caseId, payId, ref);
  }

  lemma HandlingKeepsRows(db: Db, m: nat, p: Payload, now: int, missed: Missed, freshId: string)
    ensures var r := HandleEvent(db, m, p, now, missed, freshId);
      r.Commit? ==> r.db.decisions == db.decisions && |r.db.attempts| == |db.attempts|
  {
    SyncAllValid(db, m, p, missed.customer);
    var (synced, order, pay) := SyncAll(db, m, p, missed.customer);
    if IsFailureEvent(p) {
      FirstActiveFound(synced.cases, m, order);
    } else if IsCaptureEvent(p) {
      WebhookKeepsRows(synced, m, p, freshId);
    }
  }

  lemma WebhookKeepsRows(db: Db, m: nat, p: Payload, freshId: string)
    ensures var r := VerifyFromWebhook(db, m, p, freshId);
      r.Commit? ==> r.db.decisions == db.decisions && |r.db.attempts| == |db.attempts|
  {
    FindOrderFound(db.orders, m, p.externalOrderId);
    var order := FindOrder(db.orders, m, p.externalOrderId);
    if order.Some? {
      FirstVerifiableFound(db.cases, order.value);
      SettlingPaymentValid(db, m, order.value, p, freshId);
      FindPaymentFound(db.payments, m, p.externalPaymentId);
      var c := FirstVerifiable(db.cases, order.value);
      if c.Some? {
        var (paid, payId) := SettlingPayment(db, m, order.value, p, freshId);
        VerifyKeepsRows(paid, c.value, payId, p.linkId);
      }
    }
  }

  lemma DeliveriesKeepRows(db: Db, op: Op)
    requires op.Ingest? || op.Process? || op.Poll? || op.ReassessAll?
    ensures Apply(db, op).decisions == db.decisions && |Apply(db, op).attempts| == |db.attempts|
  {
    match op {
      case Ingest(_, _, _) =>
      case Process(rawId, now, missed, freshId) =>
        if rawId < |db.events| && db.events[rawId].payload.Some? {
          HandlingKeepsRows(db, db.events[rawId].merchant, db.events[rawId].payload.value, now, missed, freshId);
        }
      case Poll(c, merchantExists, linkPaid, freshId) =>
        PollKeepsRows(db, c, merchantExists, linkPaid, freshId);
      case ReassessAll(_) =>
    }
  }

  lemma PollKeepsRows(db: Db, c: nat, merchantExists: bool, linkPaid: bool, freshId: string)
    ensures var r := PollAndReconcile(db, c, merchantExists, linkPaid, freshId);
      r.Commit? ==>
        r.db.decisions == db.decisions && |r.db.attempts| == |db.attempts| && |r.db.cases| == |db.cases|
  {
    var r := PollAndReconcile(db, c, merchantExists, linkPaid, freshId);
    if r.Commit? && r.db != db {
      var k := db.cases[c];
      var paid := db.(
        orders := db.orders[k.order := db.orders[k.order].(status := OrderPaid)],
        payments := db.payments + [Payment(k.merchant, k.order, freshId, k.amountAtRisk, k.currency, PayCaptured)]);
      VerifyKeepsRows(paid, c, |db.payments|, PollLink(db.attempts, c).value);
      VerifyMovesCase(paid, c, |db.payments|, PollLink(db.attempts, c).value, c);
    }
  }

  lemma DeliveriesOpenFresh(db: Db, op: Op)
    requires Core(db) && (op.Ingest? || op.Process? || op.Poll? || op.ReassessAll?)
    ensures |db.cases| <= |Apply(db, op).cases|
    ensures forall i | |db.cases| <= i < |Apply(db, op).cases| ::
      Apply(db, op).cases[i].status == DIAGNOSING && Apply(db, op).cases[i].attemptCount == 0
  {
    match op {
      case Ingest(_, _, _) =>
      case Process(rawId, now, missed, freshId) =>
        if rawId < |db.events| && db.events[rawId].payload.Some? {
          HandlingOpens(db, db.events[rawId].merchant, db.events[rawId].payload.value, now, missed, freshId);
        }
      case Poll(c, merchantExists, linkPaid, freshId) =>
        PollKeepsRows(db, c, merchantExists, linkPaid, freshId);
      case ReassessAll(_) =>
    }
  }

  lemma DeliveriesAreIdle(db: Db, op: Op)
    requires Inv(db) && (op.Ingest? || op.Process? || op.Poll? || op.ReassessAll?)
    ensures Idle(db, Apply(db, op))
  {
    StepKeepsInv(db, op);
    DeliveriesKeepRows(db, op);
    DeliveriesOpenFresh(db, op);
    if op.ReassessAll? {
      ReassessedIsIdle(db, op.now);
    } else {
      DeliveriesSettleOnly(db, op);
    }
  }

  lemma ReassessedIsIdle(db: Db, now: int)
    ensures var after := ReassessScheduled(db, now);
      forall i | 0 <= i < |db.cases| ::
        && after.cases[i].attemptCount == db.cases[i].attemptCount
        && (after.cases[i].status == db.cases[i].status || after.cases[i].status == DETECTED)
  {
    forall i | 0 <= i < |db.cases| ensures ReassessScheduled(db, now).cases[i] == Reassess(db.cases[i], now) {
    }
  }

  // ---- Decisions ----

  /** One decision: it was possible, its row is numbered after the attempts, and it commands what its status says. */
  predicate AddsRow(a: Db, b: Db, id: nat) {
    && id < |a.cases| && |b.cases| == |a.cases| && b.attempts == a.attempts
    && |b.decisions| == |a.decisions| + 1 && a.decisions <= b.decisions
    && (forall i | 0 <= i < |a.cases| && i != id :: b.cases[i] == a.cases[i])
    && Decidable(a.cases[id].status) && b.cases[id].attemptCount == a.cases[id].attemptCount
    && var row, status := b.decisions[|a.decisions|], b.cases[id].status;
       && row.caseId == id && row.attemptNumber == a.cases[id].attemptCount + 1
       && status in {APPROVED, REJECTED, ESCALATED}
       && (status == REJECTED ==> !Commands(row))
       && (status == ESCALATED ==> row.authorized == HUMAN_ESCALATION && a.cases[id].status != ESCALATED)
  }

  lemma VerdictsFixStatus(
    proposed: ActionType, c: Case, ctx: Context, p: Policy, rankings: seq<ErvResult>, now: int)
    ensures var r := EvaluatePolicy(proposed, c, ctx, p, rankings, now);
      && StatusFor(r) in {APPROVED, REJECTED, ESCALATED}
      && (StatusFor(r) == REJECTED ==> r.authorized == DO_NOTHING || r.verdict == VerdictRejected)
      && (StatusFor(r) == ESCALATED ==> r.authorized == HUMAN_ESCALATION)
  {
    DecisionOutcomes.VerdictsFixActions(proposed, c, ctx, p, rankings, now);
  }

  lemma DecidableExactly(c: Case, target: CaseStatus)
    requires target in {APPROVED, REJECTED, ESCALATED} && CanTransition(AdvanceToPolicyCheck(c).status, target)
    ensures Decidable(c.status) && (target == ESCALATED ==> c.status != ESCALATED)
  {
  }

  lemma DecidedAddsRow(
    db: Db, t: Txn<DecisionValue>, id: nat, ctx: Context, p: Policy, model: Model, now: int, proposed: ActionType,
    audit: AuditAction, actor: Actor)
    requires id < |db.cases| && Rankings(model, db.cases[id], ctx, p) != [] && t.Commit?
    requires Served(db, t, id, ctx, p, model, now, proposed, audit, actor)
    requires |t.db.decisions| > |db.decisions| ==> RowSays(t, id, db.cases[id], |db.decisions|)
    ensures AddsRow(db, t.db, id)
  {
    var c := db.cases[id];
    VerdictsFixStatus(proposed, c, ctx, p, Rankings(model, c, ctx, p), now);
    assert Decided(db, t.db, id, StatusFor(t.value.policy), audit, actor);
    DecidableExactly(c, StatusFor(t.value.policy));
  }

  /** The new row repeats the verdict. */
  predicate RowSays(t: Txn<DecisionValue>, id: nat, c: Case, k: nat)
    requires t.Commit? && k < |t.db.decisions|
  {
    var row := t.db.decisions[k];
    && row.caseId == id && row.attemptNumber == c.attemptCount + 1
    && row.verdict == t.value.policy.verdict && row.authorized == t.value.policy.authorized
  }

  lemma CaseRowSays(db: Db, id: nat, ctx: Context, p: Policy, model: Model, now: int)
    requires id < |db.cases|
    ensures var t := EvaluateCaseDecision(db, id, ctx, p, model, now);
      t.Commit? ==> |t.db.decisions| == |db.decisions| + 1 && RowSays(t, id, db.cases[id], |db.decisions|)
  {
    RankingsExact(model, db.cases[id], ctx, p);
  }

  lemma AiRowSays(db: Db, id: nat, ctx: Context, p: Policy, model: Model, now: int, reply: AiReply)
    requires id < |db.cases|
    ensures var t := EvaluateWithAi(db, id, ctx, p, model, now, reply);
      t.Commit? ==> |t.db.decisions| == |db.decisions| + 1 && RowSays(t, id, db.cases[id], |db.decisions|)
  {
    RankingsExact(model, db.cases[id], ctx, p);
  }

  lemma DecisionsAddRows(db: Db, op: Op)
    requires op.Decide? || op.DecideWithAi?
    ensures Apply(db, op) == db || AddsRow(db, Apply(db, op), op.caseId)
  {
    if op.caseId < |db.cases| {
      var id, ctx, p, model, now := op.caseId, op.ctx, op.policy, op.model, op.now;
      if op.Decide? {
        CaseDecisionConcludes(db, id, ctx, p, model, now);
        CaseRowSays(db, id, ctx, p, model, now);
        var t := EvaluateCaseDecision(db, id, ctx, p, model, now);
        if t.Commit? {
          DecidedAddsRow(db, t, id, ctx, p, model, now, Rankings(model, db.cases[id], ctx, p)[0].action,
            DecisionEvaluated, POLICY_ENGINE);
        }
      } else {
        AiDecisionConcludes(db, id, ctx, p, model, now, op.reply);
        AiRowSays(db, id, ctx, p, model, now, op.reply);
        var t := EvaluateWithAi(db, id, ctx, p, model, now, op.reply);
        if t.Commit? {
          DecidedAddsRow(db, t, id, ctx, p, model, now, Proposed(op.reply, model, db.cases[id], ctx, p),
            AiDecisionEvaluated, t.db.ledger[|db.ledger|].actor);
        }
      }
    }
  }

  lemma RowKeepsPlan(a: Db, b: Db, id: nat)
    requires Plan(a) && AddsRow(a, b, id)
    ensures Plan(b)
  {
    assert b.decisions[..|a.decisions|] == a.decisions;
    assert forall k | 0 <= k < |a.decisions| :: b.decisions[k] == a.decisions[k];
    RowsStaySources(a, b, id);
    RowKeepsDecidable(a, b, id);
    RowKeepsIntervention(a, b, id);
  }

  lemma RowsStaySources(a: Db, b: Db, id: nat)
    requires AttemptsCommanded(a) && AddsRow(a, b, id)
    ensures AttemptsCommanded(b)
  {
    forall j | 0 <= j < |b.attempts| ensures Sourced(b.decisions, b.attempts[j]) {
      assert Sourced(a.decisions, a.attempts[j]);
      var k :| 0 <= k < |a.decisions| && ComesFrom(a.attempts[j], a.decisions[k]);
      assert b.decisions[k] == a.decisions[k];
    }
  }

  lemma RowKeepsDecidable(a: Db, b: Db, id: nat)
    requires RowsNumbered(a) && DecidableFresh(a) && AddsRow(a, b, id)
    ensures DecidableFresh(b)
  {
    assert forall k | 0 <= k < |a.decisions| :: b.decisions[k] == a.decisions[k];
  }

  lemma RowKeepsIntervention(a: Db, b: Db, id: nat)
    requires DecidableFresh(a) && OneIntervention(a.decisions) && AddsRow(a, b, id)
    ensures OneIntervention(b.decisions)
  {
    assert forall k | 0 <= k < |a.decisions| :: b.decisions[k] == a.decisions[k];
  }

  // ---- Executions ----

  lemma ExecutedStatus(c: Case, cmd: Command, r: ExecResult, now: int, dispatchedAt: int)
    requires !Terminal(c.status) && !Decidable(c.status) && c.status != VERIFYING
    requires r.target in {UNRECOVERABLE, DIAGNOSING, WAITING_EXTERNAL, ESCALATED}
    requires c.status == WAITING_EXTERNAL ==> r.target == ESCALATED
    ensures var s := AfterExecution(c, cmd, r, now, dispatchedAt).status;
      && !Decidable(s) && s != VERIFYING
      && (s == WAITING_EXTERNAL ==> c.status == WAITING_EXTERNAL || r.target == WAITING_EXTERNAL)
  {
  }

  /** The first execution of a commanded row: the case was not decidable, and what waits was attempted. */
  lemma ExecutedKeepsCases(a: Db, b: Db, cmd: Command, r: ExecResult, now: int, dispatchedAt: int, k: nat)
    requires Plan(a) && cmd.caseId < |a.cases| && Executed(a, b, cmd, r, now, dispatchedAt)
    requires !Terminal(a.cases[cmd.caseId].status) && a.cases[cmd.caseId].status != ESCALATED
    requires k < |a.decisions| && CommandIs(a.decisions[k], cmd.caseId, 1, cmd.action)
    requires cmd.key == CommandKey(cmd.caseId, 1, cmd.action) && FindAttempt(a.attempts, cmd.key).None?
    requires r.target in {UNRECOVERABLE, DIAGNOSING, WAITING_EXTERNAL, ESCALATED}
    requires cmd.action == HUMAN_ESCALATION <==> r.target == ESCALATED
    ensures RowsNumbered(b) && DecidableFresh(b) && WaitingAttempted(b)
  {
    FindAttemptFound(a.attempts, cmd.key);
    var i := cmd.caseId;
    assert a.decisions[k].caseId == i && !Decidable(a.cases[i].status);
    assert a.cases[i].status == WAITING_EXTERNAL && Intervenes(a.decisions[k]) ==>
        Attempted(a.attempts, a.decisions[k]);
    ExecutedStatus(a.cases[i], cmd, r, now, dispatchedAt);
    AttemptedStays(a, b, cmd, k);
  }

  /** What was attempted stays so, and the executed row's intervention is attempted now. */
  lemma AttemptedStays(a: Db, b: Db, cmd: Command, k: nat)
    requires |b.attempts| == |a.attempts| + 1 && a.attempts <= b.attempts && b.attempts[|a.attempts|].key == cmd.key
    requires k < |a.decisions| && CommandIs(a.decisions[k], cmd.caseId, 1, cmd.action)
    requires cmd.key == CommandKey(cmd.caseId, 1, cmd.action) && OneIntervention(a.decisions)
    ensures forall row :: Attempted(a.attempts, row) ==> Attempted(b.attempts, row)
    ensures forall l | 0 <= l < |a.decisions| && a.decisions[l].caseId == cmd.caseId && Intervenes(a.decisions[l]) ::
      cmd.action != HUMAN_ESCALATION ==> Attempted(b.attempts, a.decisions[l])
  {
    forall row | Attempted(a.attempts, row) ensures Attempted(b.attempts, row) {
      var j :| 0 <= j < |a.attempts| && a.attempts[j].key == CommandKey(row.caseId, 1, row.authorized);
      assert b.attempts[j] == a.attempts[j];
    }
    if cmd.action != HUMAN_ESCALATION {
      forall l | 0 <= l < |a.decisions| && a.decisions[l].caseId == cmd.caseId && Intervenes(a.decisions[l])
        ensures Attempted(b.attempts, a.decisions[l])
      {
        assert Intervenes(a.decisions[k]) && l == k;
        assert b.attempts[|a.attempts|].key == CommandKey(a.decisions[l].caseId, 1, a.decisions[l].authorized);
      }
    }
  }

  /** A reminder has no link of its case to remind of, since the one intervention is the reminder itself. */
  lemma ReminderFails(db: Db, cmd: Command, env: Env, k: nat)
    requires AttemptsCommanded(db) && OneIntervention(db.decisions) && cmd.caseId < |db.cases|
    requires k < |db.decisions| && CommandIs(db.decisions[k], cmd.caseId, 1, cmd.action)
    requires cmd.action == CUSTOMER_REMINDER
    ensures RunExecutor(db, cmd, env).Some? && RunExecutor(db, cmd, env).value.attemptStatus == FAILED
  {
    PriorLinkIsNewest(db.attempts, cmd.caseId);
    forall j | 0 <= j < |db.attempts| ensures !HoldsLink(db.attempts[j], cmd.caseId) {
      assert Sourced(db.decisions, db.attempts[j]);
      var l :| 0 <= l < |db.decisions| && ComesFrom(db.attempts[j], db.decisions[l]);
      if HoldsLink(db.attempts[j], cmd.caseId) {
        assert Intervenes(db.decisions[k]) && Intervenes(db.decisions[l]) && l != k;
      }
    }
  }

  lemma ExecutedKeepsAttempts(a: Db, b: Db, cmd: Command, env: Env, now: int, dispatchedAt: int, k: nat)
    requires AttemptsCommanded(a) && OneIntervention(a.decisions) && RemindersFailed(a.attempts)
    requires cmd.caseId < |a.cases| && RunExecutor(a, cmd, env).Some?
    requires Executed(a, b, cmd, RunExecutor(a, cmd, env).value, now, dispatchedAt)
    requires k < |a.decisions| && CommandIs(a.decisions[k], cmd.caseId, 1, cmd.action)
    requires cmd.key == CommandKey(cmd.caseId, 1, cmd.action)
    ensures AttemptsCommanded(b) && RemindersFailed(b.attempts)
  {
    if cmd.action == CUSTOMER_REMINDER { ReminderFails(a, cmd, env, k); }
    forall j | 0 <= j < |b.attempts| ensures Sourced(b.decisions, b.attempts[j]) {
      if j < |a.attempts| {
        assert Sourced(a.decisions, a.attempts[j]);
      } else {
        assert ComesFrom(b.attempts[j], b.decisions[k]);
      }
    }
  }

  lemma CommandedTargets(db: Db, cmd: Command, env: Env)
    requires cmd.caseId < |db.cases|
    ensures var r := RunExecutor(db, cmd, env);
      r.Some? ==> (cmd.action == HUMAN_ESCALATION <==> r.value.target == ESCALATED)
  {
  }

  lemma ExecutionKeepsPlan(db: Db, op: Op)
    requires Plan(db) && op.Execute? && HandedOut(db, op)
    ensures Plan(Apply(db, op))
  {
    if op.caseId < |db.cases| {
      var k :| 0 <= k < |db.decisions| && CommandIs(db.decisions[k], op.caseId, op.number, op.action);
      var cmd := CommandOf(db, op);
      ExecuteEffect(db, cmd, op.env, op.now, op.dispatchedAt);
      var t := ExecuteCommand(db, cmd, op.env, op.now, op.dispatchedAt);
      if t.Commit? && !t.value.isDuplicate {
        ExecutorTargets(db, cmd, op.env);
        CommandedTargets(db, cmd, op.env);
        ExecutedKeepsCases(db, t.db, cmd, RunExecutor(db, cmd, op.env).value, op.now, op.dispatchedAt, k);
        ExecutedKeepsAttempts(db, t.db, cmd, op.env, op.now, op.dispatchedAt, k);
      }
    }
  }

  // ---- Every such run ----

  lemma StepKeepsPlan(db: Db, op: Op)
    requires Inv(db) && Plan(db) && HandedOut(db, op)
    ensures Plan(Apply(db, op))
  {
    if op.Execute? {
      ExecutionKeepsPlan(db, op);
    } else if op.Decide? || op.DecideWithAi? {
      DecisionsAddRows(db, op);
      if Apply(db, op) != db { RowKeepsPlan(db, Apply(db, op), op.caseId); }
    } else {
      DeliveriesAreIdle(db, op);
      IdleKeepsPlan(db, Apply(db, op));
    }
  }

  lemma LastCall(db: Db, ops: seq<Op>)
    requires ops != []
    ensures var n := |ops| - 1; Run(db, ops) == Apply(Run(db, ops[..n]), ops[n])
  {
    var n := |ops| - 1;
    assert ops == ops[..n] + [ops[n]];
    RunThen(db, ops[..n], ops[n]);
  }

  lemma CommandedFront(ops: seq<Op>)
    requires Commanded(ops) && ops != []
    ensures var n := |ops| - 1; Commanded(ops[..n]) && HandedOut(Run(EMPTY, ops[..n]), ops[n])
  {
    var n := |ops| - 1;
    forall k | 0 <= k < n ensures HandedOut(Run(EMPTY, ops[..n][..k]), ops[..n][k]) {
      assert ops[..n][..k] == ops[..k];
      assert HandedOut(Run(EMPTY, ops[..k]), ops[k]);
    }
  }

  lemma {:induction false} CommandedRunsPlan(ops: seq<Op>)
    requires Commanded(ops)
    ensures Plan(Run(EMPTY, ops))
  {
    if ops != [] {
      LastCall(EMPTY, ops);
      CommandedFront(ops);
      CommandedRunsPlan(ops[..|ops| - 1]);
      ReachableInv(ops[..|ops| - 1]);
      StepKeepsPlan(Run(EMPTY, ops[..|ops| - 1]), ops[|ops| - 1]);
    }
  }

  // ---- Where every contact comes from ----

  function ReplyOf(op: Op): AiReply {
    if op.DecideWithAi? then op.reply else AiDisabled
  }

  /** A decision on the case that was put this contact, with every gate passed as the case then was. */
  predicate Gated(db: Db, op: Op, caseId: nat, a: ActionType) {
    && (op.Decide? || op.DecideWithAi?) && op.caseId == caseId && caseId < |db.cases|
    && var c := db.cases[caseId];
       && SnapshotOk(c) && Rankings(op.model, c, op.ctx, op.policy) != []
       && Proposed(ReplyOf(op), op.model, c, op.ctx, op.policy) == a
       && ContactGates(a, c, op.ctx, op.policy, op.now)
  }

  predicate Contacts(a: ActionType) {
    a in {PAYMENT_LINK, CUSTOMER_REMINDER}
  }

  /** A decision that adds a row for a contact passed every gate. */
  lemma NewRowIsGated(db: Db, op: Op)
    requires (op.Decide? || op.DecideWithAi?) && |Apply(db, op).decisions| > |db.decisions|
    ensures var row := Apply(db, op).decisions[|db.decisions|];
      Contacts(row.authorized) ==> Gated(db, op, row.caseId, row.authorized)
  {
    var id, ctx, p, model, now := op.caseId, op.ctx, op.policy, op.model, op.now;
    var c := db.cases[id];
    if op.Decide? {
      CaseDecisionConcludes(db, id, ctx, p, model, now);
      CaseRowSays(db, id, ctx, p, model, now);
    } else {
      AiDecisionConcludes(db, id, ctx, p, model, now, op.reply);
      AiRowSays(db, id, ctx, p, model, now, op.reply);
    }
    PipelineContactsExactlyThroughGates(ReplyOf(op), model, c, ctx, p, now, PAYMENT_LINK);
    PipelineContactsExactlyThroughGates(ReplyOf(op), model, c, ctx, p, now, CUSTOMER_REMINDER);
  }

  /** Some call of the run decided it, with every gate passed in the state that the call met. */
  ghost predicate GatedBefore(ops: seq<Op>, caseId: nat, a: ActionType) {
    exists k | 0 <= k < |ops| :: Gated(Run(EMPTY, ops[..k]), ops[k], caseId, a)
  }

  lemma GatedLater(ops: seq<Op>, caseId: nat, a: ActionType)
    requires ops != [] && GatedBefore(ops[..|ops| - 1], caseId, a)
    ensures GatedBefore(ops, caseId, a)
  {
    var n := |ops| - 1;
    var k :| 0 <= k < n && Gated(Run(EMPTY, ops[..n][..k]), ops[..n][k], caseId, a);
    assert ops[..n][..k] == ops[..k];
    assert Gated(Run(EMPTY, ops[..k]), ops[k], caseId, a);
  }

  lemma OnlyDecisionsAddRows(db: Db, op: Op, k: nat)
    requires k < |Apply(db, op).decisions|
    ensures
      || (k < |db.decisions| && Apply(db, op).decisions[k] == db.decisions[k])
      || ((op.Decide? || op.DecideWithAi?) && k == |db.decisions|)
  {
    if op.Decide? || op.DecideWithAi? {
      DecisionsAddRows(db, op);
    } else if op.Execute? {
      if op.caseId < |db.cases| { ExecuteEffect(db, CommandOf(db, op), op.env, op.now, op.dispatchedAt); }
    } else {
      DeliveriesKeepRows(db, op);
    }
  }

  /** In every run, each row for a contact was decided with every gate passed. */
  lemma {:induction false} RowsAreGated(ops: seq<Op>, k: nat)
    requires k < |Run(EMPTY, ops).decisions| && Contacts(Run(EMPTY, ops).decisions[k].authorized)
    ensures GatedBefore(ops, Run(EMPTY, ops).decisions[k].caseId, Run(EMPTY, ops).decisions[k].authorized)
  {
    if ops != [] {
      var n := |ops| - 1;
      var before, row := Run(EMPTY, ops[..n]), Run(EMPTY, ops).decisions[k];
      LastCall(EMPTY, ops);
      OnlyDecisionsAddRows(before, ops[n], k);
      if k < |before.decisions| && row == before.decisions[k] {
        RowsAreGated(ops[..n], k);
        GatedLater(ops, row.caseId, row.authorized);
      } else {
        NewRowIsGated(before, ops[n]);
        assert Gated(Run(EMPTY, ops[..n]), ops[n], row.caseId, row.authorized);
      }
    }
  }

  /** Every link or reminder attempt goes back to a decision on its case that was put this very contact and passed
      every gate, attempt limits and cooldown included, in the state the decision met. */
  lemma ContactsGoBackToGates(ops: seq<Op>, j: nat)
    requires Commanded(ops) && j < |Run(EMPTY, ops).attempts| && Contacts(Run(EMPTY, ops).attempts[j].action)
    ensures GatedBefore(ops, Run(EMPTY, ops).attempts[j].caseId, Run(EMPTY, ops).attempts[j].action)
  {
    var db := Run(EMPTY, ops);
    CommandedRunsPlan(ops);
    assert Sourced(db.decisions, db.attempts[j]);
    var k :| 0 <= k < |db.decisions| && ComesFrom(db.attempts[j], db.decisions[k]);
    RowsAreGated(ops, k);
  }

  // ---- How many there can be ----

  lemma InterventionsDiffer(db: Db, i: nat, j: nat)
    requires Plan(db) && UniqueKeys(db.attempts) && i < j < |db.attempts|
    requires db.attempts[i].caseId == db.attempts[j].caseId
    ensures db.attempts[i].action == HUMAN_ESCALATION <==> db.attempts[j].action != HUMAN_ESCALATION
  {
    var a, b := db.attempts[i], db.attempts[j];
    assert Sourced(db.decisions, a) && Sourced(db.decisions, b);
    var k :| 0 <= k < |db.decisions| && ComesFrom(a, db.decisions[k]);
    var l :| 0 <= l < |db.decisions| && ComesFrom(b, db.decisions[l]);
    assert a.key != b.key;
    assert k != l;
  }

  /** A case has at most one attempt besides calling in a person, and at most one of those: no case is contacted twice,
      whatever the limits of case and merchant allow, and no reminder ever succeeds. */
  lemma OneContactPerCase(ops: seq<Op>)
    requires Commanded(ops)
    ensures var attempts := Run(EMPTY, ops).attempts;
      && (forall i, j | 0 <= i < j < |attempts| && attempts[i].caseId == attempts[j].caseId ::
            attempts[i].action == HUMAN_ESCALATION <==> attempts[j].action != HUMAN_ESCALATION)
      && forall j | 0 <= j < |attempts| && attempts[j].action == CUSTOMER_REMINDER :: attempts[j].status == FAILED
  {
    var db := Run(EMPTY, ops);
    CommandedRunsPlan(ops);
    AttemptsExact(ops);
    forall i, j | 0 <= i < j < |db.attempts| && db.attempts[i].caseId == db.attempts[j].caseId
      ensures db.attempts[i].action == HUMAN_ESCALATION <==> db.attempts[j].action != HUMAN_ESCALATION
    {
      InterventionsDiffer(db, i, j);
    }
  }

  function CountKind(attempts: seq<Attempt>, c: nat, escalates: bool): nat {
    if attempts == [] then 0
    else
      var a := attempts[|attempts| - 1];
      CountKind(attempts[..|attempts| - 1], c, escalates)
      + if a.caseId == c && (a.action == HUMAN_ESCALATION) == escalates then 1 else 0
  }

  lemma {:induction false} KindsAdd(attempts: seq<Attempt>, c: nat)
    ensures CountAttempts(attempts, c) == CountKind(attempts, c, true) + CountKind(attempts, c, false)
  {
    if attempts != [] { KindsAdd(attempts[..|attempts| - 1], c); }
  }

  lemma {:induction false} NoneOfKind(attempts: seq<Attempt>, c: nat, escalates: bool)
    requires forall i | 0 <= i < |attempts| && attempts[i].caseId == c ::
      (attempts[i].action == HUMAN_ESCALATION) != escalates
    ensures CountKind(attempts, c, escalates) == 0
  {
    if attempts != [] { NoneOfKind(attempts[..|attempts| - 1], c, escalates); }
  }

  lemma {:induction false} OneOfKind(attempts: seq<Attempt>, c: nat, escalates: bool)
    requires forall i, j | 0 <= i < j < |attempts| && attempts[i].caseId == c && attempts[j].caseId == c ::
      attempts[i].action == HUMAN_ESCALATION <==> attempts[j].action != HUMAN_ESCALATION
    ensures CountKind(attempts, c, escalates) <= 1
  {
    if attempts != [] {
      var n := |attempts| - 1;
      if attempts[n].caseId == c && (attempts[n].action == HUMAN_ESCALATION) == escalates {
        NoneOfKind(attempts[..n], c, escalates);
      } else {
        OneOfKind(attempts[..n], c, escalates);
      }
    }
  }

  /** A case never has more than two attempts in all. */
  lemma AttemptsBounded(ops: seq<Op>, c: nat)
    requires Commanded(ops) && c < |Run(EMPTY, ops).cases|
    ensures Run(EMPTY, ops).cases[c].attemptCount <= 2
  {
    OneContactPerCase(ops);
    AttemptsExact(ops);
    KindsAdd(Run(EMPTY, ops).attempts, c);
    OneOfKind(Run(EMPTY, ops).attempts, c, true);
    OneOfKind(Run(EMPTY, ops).attempts, c, false);
  }
}
