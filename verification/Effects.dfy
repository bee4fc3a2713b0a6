/** How each service call relates the database before it to the database after it. */
module Effects {
  import opened Domain
  import opened StateMachine
  import opened Tables
  import opened Decision
  import opened Services
  import opened Lifecycle

  // ---- Kinds of change ----

  /** No settlement: outcomes stay, no money moves, RECOVERED is not entered, new cases hold nothing. */
  predicate Quiet(a: Db, b: Db) {
    && Evolves(a, b) && b.outcomes == a.outcomes
    && (forall i | 0 <= i < |a.cases| :: Unsettled(a.cases[i], b.cases[i]))
    && forall i | |a.cases| <= i < |b.cases| :: b.cases[i].amountRecovered == 0 && b.cases[i].status != RECOVERED
  }

  /** The ledger entries about one attempt, in order. */
  function AttemptTrail(ledger: seq<Audit>, id: nat): seq<AuditAction> {
    if ledger == [] then []
    else
      var last := ledger[|ledger| - 1];
      AttemptTrail(ledger[..|ledger| - 1], id) + if last.entity == AttemptEntity(id) then [last.action] else []
  }

  /** No execution: same attempts, same counts, no ledger entry about an attempt. */
  ghost predicate NoExecution(a: Db, b: Db) {
    && |b.attempts| == |a.attempts|
    && (forall i | 0 <= i < |a.cases| && i < |b.cases| :: b.cases[i].attemptCount == a.cases[i].attemptCount)
    && (forall i | |a.cases| <= i < |b.cases| :: b.cases[i].attemptCount == 0)
    && forall id: nat :: AttemptTrail(b.ledger, id) == AttemptTrail(a.ledger, id)
  }

  lemma RecordTrail(db: Db, merchant: nat, entity: Entity, action: AuditAction, actor: Actor)
    ensures forall id: nat ::
      AttemptTrail(Record(db, merchant, entity, action, actor).ledger, id)
      == AttemptTrail(db.ledger, id) + (if entity == AttemptEntity(id) then [action] else [])
  {
    assert (db.ledger + [Audit(merchant, entity, action, actor)])[..|db.ledger|] == db.ledger;
  }

  lemma EvolvesReflexive(a: Db)
    ensures Evolves(a, a) && Quiet(a, a) && NoExecution(a, a)
  {
  }

  /** Replacing one case and recording one entry about something other than an attempt. */
  lemma OneCaseChanged(db: Db, id: nat, c': Case)
    requires id < |db.cases| && CaseEvolves(db.cases[id], c')
    ensures Evolves(db, db.(cases := db.cases[id := c']))
  {
    forall i | 0 <= i < |db.cases| ensures CaseEvolves(db.cases[i], db.cases[id := c'][i]) {
      if i != id { CaseEvolvesReflexive(db.cases[i]); }
    }
  }

  // ---- Decisions ----

  /** One decision on one case: its walk and estimate, one decision row, one ledger entry, nothing else. */
  predicate Decided(a: Db, b: Db, id: nat, target: CaseStatus, audit: AuditAction, actor: Actor)
    requires id < |a.cases|
  {
    && |b.cases| == |a.cases| && b.cases == a.cases[id := b.cases[id]] && DecidedCase(a.cases[id], b.cases[id], target)
    && |b.decisions| == |a.decisions| + 1 && a.decisions <= b.decisions
    && b.ledger == a.ledger + [Audit(a.cases[id].merchant, DecisionEntity(|a.decisions|), audit, actor)]
    && b == a.(cases := b.cases, decisions := b.decisions, ledger := b.ledger)
  }

  /** What a decision service does with a proposal: it commits exactly when the verdict's status is allowed, stores
      the top estimate, and hands out a command for the authorized action. */
  predicate Concluded(
    db: Db, t: Txn<DecisionValue>, id: nat, ctx: Context, p: Policy, now: int, candidates: seq<ActionType>,
    rankings: seq<ErvResult>, proposed: ActionType, audit: AuditAction, actor: Actor)
    requires id < |db.cases| && rankings != []
  {
    var c := db.cases[id];
    var r := EvaluatePolicy(proposed, c, ctx, p, rankings, now);
    && (t.Commit? <==> CanTransition(AdvanceToPolicyCheck(c).status, StatusFor(r)))
    && (t.Commit? ==>
          && Decided(db, t.db, id, StatusFor(r), audit, actor)
          && t.db.cases[id].probability == Some(rankings[0].probability)
          && t.db.cases[id].expectedValue == Some(rankings[0].net)
          && t.value == DecisionValue(candidates, rankings, proposed, r, t.value.command)
          && CommandFollows(t.value.command, id, c, r))
  }

  /** The same of the whole service, which first builds the snapshot, or raises. */
  predicate Served(
    db: Db, t: Txn<DecisionValue>, id: nat, ctx: Context, p: Policy, model: Model, now: int, proposed: ActionType,
    audit: AuditAction, actor: Actor)
    requires id < |db.cases| && Rankings(model, db.cases[id], ctx, p) != []
  {
    var c := db.cases[id];
    if SnapshotOk(c)
    then Concluded(db, t, id, ctx, p, now, Candidates(c, ctx, p), Rankings(model, c, ctx, p), proposed, audit, actor)
    else t.Abort?
  }

  /** A command is handed out exactly for an authorized action that is not rejected, at the next attempt number. */
  predicate CommandFollows(command: Option<Command>, id: nat, c: Case, r: PolicyResult) {
    && (command.Some? <==> r.authorized != DO_NOTHING && r.verdict != VerdictRejected)
    && (command.Some? ==>
          && command.value == CreateCommand(id, c, r.authorized, c.attemptCount + 1, command.value.payload)
          && command.value.payload.rule == r.rule && command.value.payload.delaySeconds == r.delaySeconds)
  }

  lemma CaseBodyConcludes(
    db: Db, id: nat, ctx: Context, p: Policy, now: int, candidates: seq<ActionType>, ranked: seq<ErvResult>)
    requires id < |db.cases| && ranked != []
    ensures Concluded(
      db, ConcludeCaseDecision(db, id, ctx, p, now, candidates, ranked), id, ctx, p, now, candidates, ranked,
      ranked[0].action, DecisionEvaluated, POLICY_ENGINE)
  {
  }

  lemma AiBodyConcludes(
    db: Db, id: nat, ctx: Context, p: Policy, now: int, candidates: seq<ActionType>, ranked: seq<ErvResult>,
    advice: Recommendation, metadata: Metadata)
    requires id < |db.cases| && ranked != []
    ensures Concluded(
      db, ConcludeWithAi(db, id, ctx, p, now, candidates, ranked, advice, metadata),
      id, ctx, p, now, candidates, ranked,
      advice.action, AiDecisionEvaluated, AiAgent(metadata.model))
  {
  }

  lemma CaseDecisionConcludes(db: Db, id: nat, ctx: Context, p: Policy, model: Model, now: int)
    requires id < |db.cases|
    ensures Rankings(model, db.cases[id], ctx, p) != []
    ensures Served(db, EvaluateCaseDecision(db, id, ctx, p, model, now), id, ctx, p, model, now,
      Rankings(model, db.cases[id], ctx, p)[0].action, DecisionEvaluated, POLICY_ENGINE)
  {
    var c := db.cases[id];
    RankingsExact(model, c, ctx, p);
    CaseBodyConcludes(db, id, ctx, p, now, Candidates(c, ctx, p), Rankings(model, c, ctx, p));
  }

  lemma AdviseProposes(reply: AiReply, model: Model, c: Case, ctx: Context, p: Policy)
    ensures Rankings(model, c, ctx, p) != []
    ensures Advise(reply, Candidates(c, ctx, p), Rankings(model, c, ctx, p)[0], c).0.action
      == Proposed(reply, model, c, ctx, p)
  {
    RankingsExact(model, c, ctx, p);
  }

  lemma AiDecisionConcludes(db: Db, id: nat, ctx: Context, p: Policy, model: Model, now: int, reply: AiReply)
    requires id < |db.cases|
    ensures Rankings(model, db.cases[id], ctx, p) != []
    ensures var top := Rankings(model, db.cases[id], ctx, p)[0];
      Served(db, EvaluateWithAi(db, id, ctx, p, model, now, reply), id, ctx, p, model, now,
        Proposed(reply, model, db.cases[id], ctx, p), AiDecisionEvaluated,
        AiAgent(Advise(reply, Candidates(db.cases[id], ctx, p), top, db.cases[id]).1.model))
  {
    var c := db.cases[id];
    AdviseProposes(reply, model, c, ctx, p);
    var (candidates, ranked) := (Candidates(c, ctx, p), Rankings(model, c, ctx, p));
    var (advice, metadata) := Advise(reply, candidates, ranked[0], c);
    AiBodyConcludes(db, id, ctx, p, now, candidates, ranked, advice, metadata);
  }

  /** A served decision in terms of its answer. */
  lemma ServedStores(
    db: Db, t: Txn<DecisionValue>, id: nat, ctx: Context, p: Policy, model: Model, now: int, proposed: ActionType,
    audit: AuditAction, actor: Actor)
    requires id < |db.cases| && Rankings(model, db.cases[id], ctx, p) != [] && t.Commit?
    requires Served(db, t, id, ctx, p, model, now, proposed, audit, actor)
    ensures SnapshotOk(db.cases[id]) && |t.db.cases| == |db.cases|
    ensures var c, c', top := db.cases[id], t.db.cases[id], Rankings(model, db.cases[id], ctx, p)[0];
      && t.value.candidates == Candidates(c, ctx, p) && t.value.rankings == Rankings(model, c, ctx, p)
      && c'.probability == Some(top.probability) && c'.expectedValue == Some(top.net)
      && c'.amountAtRisk == c.amountAtRisk && c'.amountRecovered == c.amountRecovered && c'.currency == c.currency
      && (t.value.command.Some? ==>
            t.value.command.value.key == CommandKey(id, c.attemptCount + 1, t.value.policy.authorized))
    ensures forall i | 0 <= i < |db.cases| && i != id :: t.db.cases[i] == db.cases[i]
  {
  }

  lemma DecidedIsQuiet(a: Db, b: Db, id: nat, target: CaseStatus, audit: AuditAction, actor: Actor)
    requires id < |a.cases| && Decided(a, b, id, target, audit, actor)
    requires target in {APPROVED, REJECTED, ESCALATED}
      && CanTransition(AdvanceToPolicyCheck(a.cases[id]).status, target)
    ensures Quiet(a, b) && NoExecution(a, b)
  {
    DecisionEvolves(a.cases[id], b.cases[id], target);
    OneCaseChanged(a, id, b.cases[id]);
    RecordTrail(a, a.cases[id].merchant, DecisionEntity(|a.decisions|), audit, actor);
  }

  /** What the runs need of a decision. */
  ghost predicate DecisionOnly(a: Db, b: Db) {
    && Quiet(a, b) && NoExecution(a, b) && |b.cases| == |a.cases|
    && b == a.(cases := b.cases, decisions := b.decisions, ledger := b.ledger)
  }

  lemma CaseDecisionIsQuiet(db: Db, id: nat, ctx: Context, p: Policy, model: Model, now: int)
    requires id < |db.cases|
    ensures var d := EvaluateCaseDecision(db, id, ctx, p, model, now); d.Commit? ==> DecisionOnly(db, d.db)
  {
    CaseDecisionConcludes(db, id, ctx, p, model, now);
    var d := EvaluateCaseDecision(db, id, ctx, p, model, now);
    if d.Commit? { DecidedIsQuiet(db, d.db, id, StatusFor(d.value.policy), DecisionEvaluated, POLICY_ENGINE); }
  }

  lemma AiDecisionIsQuiet(db: Db, id: nat, ctx: Context, p: Policy, model: Model, now: int, reply: AiReply)
    requires id < |db.cases|
    ensures var a := EvaluateWithAi(db, id, ctx, p, model, now, reply); a.Commit? ==> DecisionOnly(db, a.db)
  {
    AiDecisionConcludes(db, id, ctx, p, model, now, reply);
    var a := EvaluateWithAi(db, id, ctx, p, model, now, reply);
    if a.Commit? {
      DecidedIsQuiet(db, a.db, id, StatusFor(a.value.policy), AiDecisionEvaluated, a.db.ledger[|db.ledger|].actor);
    }
  }

  // ---- Execution ----

  lemma ExecutorTargets(db: Db, cmd: Command, env: Env)
    requires cmd.caseId < |db.cases|
    ensures var r := RunExecutor(db, cmd, env);
      r.Some? ==> r.value.target in {UNRECOVERABLE, DIAGNOSING, WAITING_EXTERNAL, ESCALATED}
  {
  }

  /** A committed first execution: one attempt with the command's key, one count, two ledger entries in order. */
  predicate Executed(a: Db, b: Db, cmd: Command, r: ExecResult, now: int, dispatchedAt: int)
    requires cmd.caseId < |a.cases|
  {
    var c := a.cases[cmd.caseId];
    var id := |a.attempts|;
    && b.cases == a.cases[cmd.caseId := AfterExecution(c, cmd, r, now, dispatchedAt)]
    && b.attempts == a.attempts + [Attempt(cmd.caseId, c.merchant, cmd.action, cmd.key, r.attemptStatus, r.gatewayRef)]
    && b.ledger == a.ledger + [Audit(c.merchant, AttemptEntity(id), AttemptCreated, ORCHESTRATOR)]
         + [Audit(c.merchant, AttemptEntity(id), if r.isSuccess then GatewayAccepted else ExecutionFailed,
             ORCHESTRATOR)]
    && b.outcomes == a.outcomes && b.payments == a.payments && b.orders == a.orders
    && b.customers == a.customers && b.events == a.events && b.decisions == a.decisions
  }

  lemma ExecuteEffect(db: Db, cmd: Command, env: Env, now: int, dispatchedAt: int)
    ensures var t := ExecuteCommand(db, cmd, env, now, dispatchedAt);
      t.Commit? ==>
        && cmd.caseId < |db.cases| && t.value.isDuplicate == FindAttempt(db.attempts, cmd.key).Some?
        && (t.value.isDuplicate ==> t.db == db)
        && (!t.value.isDuplicate ==>
              && RunExecutor(db, cmd, env).Some? && t.value.attemptId == |db.attempts|
              && !Terminal(db.cases[cmd.caseId].status) && db.cases[cmd.caseId].status != ESCALATED
              && Executed(db, t.db, cmd, RunExecutor(db, cmd, env).value, now, dispatchedAt))
  {
  }

  lemma ExecutedIsQuiet(a: Db, b: Db, cmd: Command, r: ExecResult, now: int, dispatchedAt: int)
    requires cmd.caseId < |a.cases| && Executed(a, b, cmd, r, now, dispatchedAt)
    requires !Terminal(a.cases[cmd.caseId].status) && a.cases[cmd.caseId].status != ESCALATED
    requires r.target in {UNRECOVERABLE, DIAGNOSING, WAITING_EXTERNAL, ESCALATED}
    ensures Quiet(a, b) && |b.cases| == |a.cases|
    ensures b.cases[cmd.caseId].attemptCount == a.cases[cmd.caseId].attemptCount + 1
  {
    ExecutionEvolves(a.cases[cmd.caseId], cmd, r, now, dispatchedAt);
    OneCaseChanged(a, cmd.caseId, b.cases[cmd.caseId]);
  }

  // ---- Synchronisation ----

  lemma SyncAllEffect(db: Db, merchant: nat, p: Payload, read: CustomerRead)
    ensures var (db', order, pay) := SyncAll(db, merchant, p, read); Quiet(db, db') && NoExecution(db, db')
  {
    SyncAllValid(db, merchant, p, read);
    var (db1, customer) := SyncCustomer(db, merchant, p, read);
    var (db2, order) := SyncOrder(db1, merchant, customer, p);
    SyncOrderGrows(db1, merchant, customer, p);
    SyncPaymentEvolves(db2, merchant, order, p);
  }

  lemma SyncOrderGrows(db: Db, merchant: nat, customer: Option<nat>, p: Payload)
    ensures var (db', order) := SyncOrder(db, merchant, customer, p);
      OrdersEvolve(db.orders, db'.orders) && db'.payments == db.payments
  {
    FindOrderFound(db.orders, merchant, OrderKey(p));
  }

  lemma SyncPaymentEvolves(db: Db, merchant: nat, order: nat, p: Payload)
    ensures var (db', pay) := SyncPayment(db, merchant, order, p);
      PaymentsEvolve(db.payments, db'.payments) && db'.orders == db.orders
  {
    FindPaymentFound(db.payments, merchant, p.externalPaymentId);
  }

  lemma MarkProcessedEffect(db: Db, rawId: nat)
    requires rawId < |db.events|
    ensures Quiet(db, MarkProcessed(db, rawId)) && NoExecution(db, MarkProcessed(db, rawId))
  {
  }

  lemma IngestEffect(db: Db, merchant: nat, eventId: string, payload: Option<Payload>)
    ensures var (db', r) := IngestWebhook(db, merchant, eventId, payload);
      && Quiet(db, db') && NoExecution(db, db') && db'.customers == db.customers && db'.cases == db.cases
  {
  }

  /** The failure is appended to the active case. */
  lemma AppendEffect(db: Db, id: nat, payId: nat, p: Payload, merchant: nat)
    requires id < |db.cases|
    ensures var c' := db.cases[id].(
        initialPayment := payId, category := Some(p.category), isTransient := p.isTransient, diagnosis := p.diagnosis);
      var db' := Record(db.(cases := db.cases[id := c']), merchant, CaseEntity(id), FailureAppended, CASE_SERVICE);
      Quiet(db, db') && NoExecution(db, db')
  {
    var c' := db.cases[id].(
      initialPayment := payId, category := Some(p.category), isTransient := p.isTransient, diagnosis := p.diagnosis);
    FreeFieldsEvolve(db.cases[id], c');
    OneCaseChanged(db, id, c');
    RecordTrail(db.(cases := db.cases[id := c']), merchant, CaseEntity(id), FailureAppended, CASE_SERVICE);
  }

  /** A sound new case is added. */
  lemma OpenEffect(db: Db, c: Case, merchant: nat)
    requires Opened(c)
    ensures var db' := Record(db.(cases := db.cases + [c]),
      merchant, CaseEntity(|db.cases|), CaseCreated, CASE_SERVICE);
      Quiet(db, db') && NoExecution(db, db')
  {
    OpenedIsSound(c);
    RecordTrail(db.(cases := db.cases + [c]), merchant, CaseEntity(|db.cases|), CaseCreated, CASE_SERVICE);
    forall i | 0 <= i < |db.cases| ensures CaseEvolves(db.cases[i], (db.cases + [c])[i]) {
      CaseEvolvesReflexive(db.cases[i]);
    }
  }

  lemma CreateEffect(db: Db, merchant: nat, order: nat, payId: nat, p: Payload, now: int, staleMiss: bool)
    requires payId < |db.payments|
    ensures var r := CreateOrUpdateCase(db, merchant, order, payId, p, now, staleMiss);
      r.Commit? ==>
        && Quiet(db, r.db) && NoExecution(db, r.db)
        && r.db.customers == db.customers && r.db.events == db.events
        && (|r.db.cases| == |db.cases| ||
             (&& |r.db.cases| == |db.cases| + 1 && r.db.cases[..|db.cases|] == db.cases
              && r.db.cases[|db.cases|].merchant == merchant && r.db.cases[|db.cases|].order == order
              && Opened(r.db.cases[|db.cases|])
              && forall i | 0 <= i < |db.cases| :: !ActiveFor(db.cases[i], merchant, order)))
  {
    FirstActiveFound(db.cases, merchant, order);
    var active := FirstActive(db.cases, merchant, order);
    if active.Some? {
      AppendEffect(db, active.value, payId, p, merchant);
    } else {
      var c := NewCase(merchant, order, payId, db.payments[payId], p, now);
      assert c.trail == [DETECTED, ENRICHING, DIAGNOSING];
      OpenEffect(db, c, merchant);
    }
  }

  lemma ReassessScheduledEffect(db: Db, now: int)
    ensures Quiet(db, ReassessScheduled(db, now)) && NoExecution(db, ReassessScheduled(db, now))
  {
    forall i | 0 <= i < |db.cases|
      ensures CaseEvolves(db.cases[i], ReassessScheduled(db, now).cases[i])
      ensures Unsettled(db.cases[i], ReassessScheduled(db, now).cases[i])
      ensures ReassessScheduled(db, now).cases[i].attemptCount == db.cases[i].attemptCount
    {
      ReassessEvolves(db.cases[i], now);
    }
  }

  lemma SettlingPaymentEffect(db: Db, merchant: nat, order: nat, p: Payload, freshId: string)
    ensures var (db', payId) := SettlingPayment(db, merchant, order, p, freshId);
      && Quiet(db, db') && NoExecution(db, db') && db'.cases == db.cases && db'.attempts == db.attempts
      && db'.customers == db.customers && db'.events == db.events
      && payId < |db'.payments| && db'.payments[payId].status == PayCaptured
  {
    FindPaymentFound(db.payments, merchant, p.externalPaymentId);
  }

  // ---- Settlement ----

  /** What a verified settlement writes. */
  predicate Settled(a: Db, b: Db, caseId: nat, payId: nat)
    requires caseId < |a.cases| && payId < |a.payments|
  {
    var c, pay := a.cases[caseId], a.payments[payId];
    var existing := FindOutcome(a.outcomes, caseId);
    var at := if existing.Some? then existing.value else |a.outcomes|;
    && b.cases == a.cases[caseId := Recover(c, pay.amount)]
    && AttemptsEvolve(a.attempts, b.attempts) && |b.attempts| == |a.attempts|
    && b.payments == a.payments && b.orders == a.orders && b.customers == a.customers && b.events == a.events
    && b.decisions == a.decisions
    && |b.outcomes| == (if existing.Some? then |a.outcomes| else |a.outcomes| + 1)
    && at < |b.outcomes|
    && (forall i | 0 <= i < |a.outcomes| && i != at :: b.outcomes[i] == a.outcomes[i])
    && b.ledger == a.ledger + [Audit(c.merchant, OutcomeEntity(at), CaptureVerified, VERIFIER)]
    && (existing.Some? ==> b.outcomes[at].merchant == a.outcomes[at].merchant)
    && (existing.None? ==> b.outcomes[at].merchant == c.merchant)
    && OutcomeWritten(b.outcomes[at], caseId, payId, pay.amount, a.attempts)
  }

  /** Amount from the payment, cost from the credited attempt of this case, net never below zero. */
  predicate OutcomeWritten(o: Outcome, caseId: nat, payId: nat, amount: int, attempts: seq<Attempt>) {
    && o.caseId == caseId && o.settlingPayment == payId && o.isSuccessful && o.amount == amount
    && (o.successfulAttempt.Some? ==>
          o.successfulAttempt.value < |attempts| && attempts[o.successfulAttempt.value].caseId == caseId)
    && o.cost == StrategyCost(
         if o.successfulAttempt.Some? then Some(attempts[o.successfulAttempt.value].action) else None)
    && o.net == (if o.amount - o.cost > 0 then o.amount - o.cost else 0)
  }

  lemma VerifyEffect(db: Db, caseId: nat, payId: nat, ref: string)
    requires caseId < |db.cases| && payId < |db.payments|
    ensures var (db', verified) := VerifyAndRecover(db, caseId, payId, ref);
      && (verified <==> db.cases[caseId].status == RECOVERED || SettlementValid(db.cases[caseId], db.payments[payId]))
      && (db.cases[caseId].status == RECOVERED || !verified ==> db' == db)
      && (db.cases[caseId].status != RECOVERED && verified ==> Settled(db, db', caseId, payId))
  {
    MatchingAttemptFound(db.attempts, caseId, ref);
    FindOutcomeFound(db.outcomes, caseId);
  }

  lemma SettledEvolves(a: Db, b: Db, caseId: nat, payId: nat)
    requires caseId < |a.cases| && payId < |a.payments| && Settled(a, b, caseId, payId)
    ensures Evolves(a, b) && NoExecution(a, b) && |b.cases| == |a.cases|
  {
    var c := a.cases[caseId];
    RecoverEvolves(c, a.payments[payId].amount);
    RecoverStatus(c, a.payments[payId].amount);
    OneCaseChanged(a, caseId, b.cases[caseId]);
    FindOutcomeFound(a.outcomes, caseId);
    var existing := FindOutcome(a.outcomes, caseId);
    RecordTrail(a, c.merchant,
      OutcomeEntity(if existing.Some? then existing.value else |a.outcomes|), CaptureVerified, VERIFIER);
  }
}
