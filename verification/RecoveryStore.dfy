/**
 The orchestration services as they run: row by row, in place, with a rollback where an exception is raised.
 Every method is proved equal to its function in Services, so everything proved of runs holds of this code.
 */
module RecoveryStore {
  import opened Domain
  import opened StateMachine
  import opened Tables
  import opened Decision
  import S = Services

  /** A call did what the transaction says: it committed that database and value, or raised and changed nothing. */
  predicate Did<R(==)>(t: Txn<R>, before: Db, after: Db, result: Option<R>) {
    match t
    case Abort => result.None? && after == before
    case Commit(db, value) => result == Some(value) && after == db
  }

  /** The number of cases whose scheduled delay is over. */
  function CountDue(cases: seq<Case>, now: int): nat {
    if cases == [] then 0
    else
      var last := cases[|cases| - 1];
      CountDue(cases[..|cases| - 1], now) + if S.Reassess(last, now) != last then 1 else 0
  }

  /** Starting the case and opening the attempt do not change what the executor sees. */
  lemma OpenAttemptIsInvisible(a: Db, b: Db, cmd: S.Command, env: S.Env)
    requires cmd.caseId < |a.cases| && |b.cases| == |a.cases| && b.orders == a.orders
    requires b.cases[cmd.caseId].order == a.cases[cmd.caseId].order
    requires |b.attempts| == |a.attempts| + 1 && b.attempts[..|a.attempts|] == a.attempts
    requires b.attempts[|a.attempts|].gatewayRef.None?
    ensures S.RunExecutor(b, cmd, env) == S.RunExecutor(a, cmd, env)
    ensures var r := S.RunExecutor(a, cmd, env); r.Some? ==> CanTransitionAttempt(DISPATCHED, r.value.attemptStatus)
  {
    assert S.PriorLink(b.attempts, cmd.caseId) == S.PriorLink(a.attempts, cmd.caseId);
  }

  /** The tables after a committed first execution, field by field. */
  lemma ExecutionWritten(
    a: Db, b: Db, cmd: S.Command, env: S.Env, now: int, dispatchedAt: int, started: Case, res: S.ExecResult)
    requires cmd.caseId < |a.cases| && S.FindAttempt(a.attempts, cmd.key).None?
      && S.RunExecutor(a, cmd, env) == Some(res)
    requires var c := a.cases[cmd.caseId];
      !Terminal(c.status) && c.status != ESCALATED && started == if c.status == APPROVED then c.To(EXECUTING) else c
    requires b == a.(cases := b.cases, attempts := b.attempts, ledger := b.ledger)
    requires b.cases == a.cases[cmd.caseId := S.AfterExecution(started, cmd, res, now, dispatchedAt)]
    requires b.attempts == a.attempts
      + [Attempt(cmd.caseId, started.merchant, cmd.action, cmd.key, res.attemptStatus, res.gatewayRef)]
    requires b.ledger == a.ledger
      + [Audit(started.merchant, AttemptEntity(|a.attempts|), AttemptCreated, S.ORCHESTRATOR)]
      + [Audit(started.merchant, AttemptEntity(|a.attempts|),
           if res.isSuccess then GatewayAccepted else ExecutionFailed,
          S.ORCHESTRATOR)]
    ensures S.ExecuteCommand(a, cmd, env, now, dispatchedAt) == Commit(b, S.ExecutionValue(|a.attempts|, false))
    ensures cmd.action == PAYMENT_LINK ==>
      (b.attempts[|a.attempts|].status == ACKNOWLEDGED <==>
         a.cases[cmd.caseId].order < |a.orders| && env.merchantExists && env.reply.GatewayOk?)
  {
    assert S.AfterExecution(started, cmd, res, now, dispatchedAt)
        == S.AfterExecution(a.cases[cmd.caseId], cmd, res, now, dispatchedAt);
  }

  /** The tables after a settlement, field by field. */
  lemma SettlementWritten(
    a: Db, b: Db, caseId: nat, payId: nat, ref: string, credited: Option<nat>, how: Option<ActionType>,
    cost: int, net: int)
    requires caseId < |a.cases| && payId < |a.payments|
    requires a.cases[caseId].status != RECOVERED && S.SettlementValid(a.cases[caseId], a.payments[payId])
    requires credited == S.MatchingAttempt(a.attempts, caseId, ref)
      && (credited.Some? ==> credited.value < |a.attempts|)
    requires how == if credited.Some? then Some(a.attempts[credited.value].action) else None
    requires cost == S.StrategyCost(how)
    requires net == if a.payments[payId].amount - cost > 0 then a.payments[payId].amount - cost else 0
    requires b == a.(cases := b.cases, attempts := b.attempts, outcomes := b.outcomes, ledger := b.ledger)
    requires b.cases == a.cases[caseId := S.Recover(a.cases[caseId], a.payments[payId].amount)]
    requires b.attempts == S.MarkSucceeded(a.attempts, credited)
    requires var existing := S.FindOutcome(a.outcomes, caseId);
      var id := if existing.Some? then existing.value else |a.outcomes|;
      && (if existing.None?
          then b.outcomes == a.outcomes
            + [Outcome(caseId, a.cases[caseId].merchant, payId, credited, true,
               a.payments[payId].amount, cost, net, how)]
          else id < |a.outcomes| && b.outcomes == a.outcomes[id := a.outcomes[id].(isSuccessful := true,
            amount := a.payments[payId].amount, cost := cost, net := net,
            settlingPayment := payId, successfulAttempt := credited)])
      && b.ledger == a.ledger + [Audit(a.cases[caseId].merchant, OutcomeEntity(id), CaptureVerified, S.VERIFIER)]
    ensures S.VerifyAndRecover(a, caseId, payId, ref) == (b, true)
  {
  }

  /** The tables and the answer after the deterministic service, field by field. */
  lemma CaseDecisionWritten(
    a: Db, b: Db, id: nat, ctx: Context, p: Policy, now: int, candidates: seq<ActionType>, ranked: seq<ErvResult>,
    verdict: PolicyResult, command: Option<S.Command>)
    requires id < |a.cases| && ranked != []
    requires verdict == EvaluatePolicy(ranked[0].action, a.cases[id], ctx, p, ranked, now)
    requires CanTransition(S.AdvanceToPolicyCheck(a.cases[id]).status, S.StatusFor(verdict))
    requires command == (
        if verdict.authorized != DO_NOTHING && verdict.verdict != VerdictRejected
        then Some(S.CreateCommand(id, a.cases[id], verdict.authorized, a.cases[id].attemptCount + 1,
               S.CommandPayload(verdict.rule, verdict.delaySeconds, None)))
        else None)
    requires b == a.(cases := b.cases, decisions := b.decisions, ledger := b.ledger)
    requires b.cases == a.cases[id := S.AdvanceToPolicyCheck(a.cases[id]).To(S.StatusFor(verdict)).(
      probability := Some(ranked[0].probability), expectedValue := Some(ranked[0].net))]
    requires b.decisions == a.decisions + [DecisionRow(
      id, a.cases[id].merchant, a.cases[id].attemptCount + 1, candidates, ranked[0].action, CERTAIN, OfTop(ranked[0]),
      ranked, None, verdict.verdict, verdict.authorized, verdict.rule, verdict.delaySeconds)]
    requires b.ledger == a.ledger
      + [Audit(a.cases[id].merchant, DecisionEntity(|a.decisions|), DecisionEvaluated, S.POLICY_ENGINE)]
    ensures S.ConcludeCaseDecision(a, id, ctx, p, now, candidates, ranked)
      == Commit(b, S.DecisionValue(candidates, ranked, ranked[0].action, verdict, command))
  {
  }

  /** The tables and the answer after the AI service, field by field. */
  lemma AiDecisionWritten(
    a: Db, b: Db, id: nat, ctx: Context, p: Policy, now: int, candidates: seq<ActionType>, ranked: seq<ErvResult>,
    advice: Recommendation, metadata: Metadata, verdict: PolicyResult, command: Option<S.Command>)
    requires id < |a.cases| && ranked != []
    requires verdict == EvaluatePolicy(advice.action, a.cases[id], ctx, p, ranked, now)
    requires CanTransition(S.AdvanceToPolicyCheck(a.cases[id]).status, S.StatusFor(verdict))
    requires command == (
        if verdict.authorized != DO_NOTHING && verdict.verdict != VerdictRejected
        then Some(S.CreateCommand(id, a.cases[id], verdict.authorized, a.cases[id].attemptCount + 1,
               S.CommandPayload(verdict.rule, verdict.delaySeconds,
                 Some(S.AiNote(advice.action, metadata.isFallback)))))
        else None)
    requires b == a.(cases := b.cases, decisions := b.decisions, ledger := b.ledger)
    requires b.cases == a.cases[id := S.AdvanceToPolicyCheck(a.cases[id]).To(S.StatusFor(verdict)).(
      probability := Some(ranked[0].probability), expectedValue := Some(ranked[0].net),
      confidence := Some(advice.confidence), diagnosis := Some(advice.diagnosis))]
    requires b.decisions == a.decisions + [DecisionRow(
      id, a.cases[id].merchant, a.cases[id].attemptCount + 1, candidates, advice.action, advice.confidence,
      advice.rationale, ranked,
      Some(AiTrace(advice.diagnosis, advice.alternative, advice.latencyMinutes, ranked[0].action, metadata)),
      verdict.verdict, verdict.authorized, verdict.rule, verdict.delaySeconds)]
    requires b.ledger == a.ledger
      + [Audit(a.cases[id].merchant, DecisionEntity(|a.decisions|), AiDecisionEvaluated, AiAgent(metadata.model))]
    ensures S.ConcludeWithAi(a, id, ctx, p, now, candidates, ranked, advice, metadata)
      == Commit(b, S.DecisionValue(candidates, ranked, advice.action, verdict, command))
  {
  }

  class Store {
    var cases: seq<Case>
    var attempts: seq<Attempt>
    var outcomes: seq<Outcome>
    var payments: seq<Payment>
    var orders: seq<Order>
    var customers: seq<Customer>
    var events: seq<RawEvent>
    var decisions: seq<DecisionRow>
    var ledger: seq<Audit>

    function View(): Db
      reads this
    {
      Db(cases, attempts, outcomes, payments, orders, customers, events, decisions, ledger)
    }

    constructor ()
      ensures View() == EMPTY
    {
      cases, attempts, outcomes, payments, orders := [], [], [], [], [];
      customers, events, decisions, ledger := [], [], [], [];
    }

    method Rollback(saved: Db)
      modifies this
      ensures View() == saved
    {
      cases, attempts, outcomes, payments, orders :=
        saved.cases, saved.attempts, saved.outcomes, saved.payments, saved.orders;
      customers, events, decisions, ledger := saved.customers, saved.events, saved.decisions, saved.ledger;
    }

    method RecordEvent(merchant: nat, entity: Entity, action: AuditAction, actor: Actor)
      modifies `ledger
      ensures View() == S.Record(old(View()), merchant, entity, action, actor)
    {
      ledger := ledger + [Audit(merchant, entity, action, actor)];
    }

    method SetStatus(id: nat, status: CaseStatus)
      requires id < |cases|
      modifies `cases
      ensures cases == old(cases)[id := old(cases)[id].To(status)]
    {
      cases := cases[id := cases[id].To(status)];
    }

    // ---- Webhook ingestion (webhook_ingestion_service.py) ----

    /** `sawNone`: the lookup ran before another delivery's commit and found nothing; the unique constraint decides. */
    method IngestRazorpayWebhook(merchant: nat, eventId: string, payload: Option<Payload>, sawNone: bool)
      returns (r: S.Ingested)
      modifies `events
      ensures (View(), r) == S.IngestWebhook(old(View()), merchant, eventId, payload)
    {
      if !sawNone {
        var existing := S.FindEvent(events, merchant, eventId);
        if existing.Some? {
          return S.Ingested(true, existing.value);
        }
      }
      var holder := S.FindEvent(events, merchant, eventId);
      if holder.Some? {
        // The insert fails: roll back and select the row that won.
        return S.Ingested(true, holder.value);
      }
      r := S.Ingested(false, |events|);
      events := events + [RawEvent(merchant, eventId, payload, false)];
    }

    // ---- Synchronisation (order_payment_sync_service.py) ----

    /** `read`: the row as it was read, without a lock, perhaps before another task wrote it. */
    method SyncCustomer(merchant: nat, p: Payload, read: S.CustomerRead) returns (customer: Option<nat>)
      modifies `customers
      ensures (View(), customer) == S.SyncCustomer(old(View()), merchant, p, read)
    {
      if p.email == "" && p.phone == "" {
        return None;
      }
      var seen := S.CustomerToWrite(customers, merchant, p, read);
      if seen.None? {
        customer := Some(|customers|);
        customers := customers + [Customer(merchant, p.email, p.phone, if p.name != "" then p.name else "Customer",
          if p.status == "failed" then 1 else 0, if p.status == "failed" then 1 else 0)];
      } else {
        var (i, total, name) := seen.value;
        customer := Some(i);
        var row := customers[i];
        if p.status == "failed" {
          row := row.(totalFailures := total + 1, credits := row.credits + 1);
        }
        if p.name != "" && name == "Customer" {
          row := row.(name := p.name);
        }
        customers := customers[i := row];
      }
    }

    method SyncOrder(merchant: nat, customer: Option<nat>, p: Payload) returns (order: nat)
      modifies `orders
      ensures (View(), order) == S.SyncOrder(old(View()), merchant, customer, p)
    {
      S.FindOrderFound(orders, merchant, S.OrderKey(p));
      var found := S.FindOrder(orders, merchant, S.OrderKey(p));
      var newStatus := if S.IsCapturedEvent(p) then OrderPaid else OrderAttempted;
      if found.None? {
        order := |orders|;
        orders := orders + [Order(merchant, customer, S.OrderKey(p), p.amount, p.currency, newStatus)];
      } else {
        order := found.value;
        var row := orders[order];
        if row.status != OrderPaid {
          row := row.(status := newStatus);
          if customer.Some? && row.customer.None? {
            row := row.(customer := customer);
          }
          orders := orders[order := row];
        }
      }
    }

    method SyncPayment(merchant: nat, order: nat, p: Payload) returns (payment: nat)
      modifies `payments
      ensures (View(), payment) == S.SyncPayment(old(View()), merchant, order, p)
    {
      S.FindPaymentFound(payments, merchant, p.externalPaymentId);
      var found := S.FindPayment(payments, merchant, p.externalPaymentId);
      var mapped := S.MappedStatus(p.status);
      if found.None? {
        payment := |payments|;
        payments := payments + [Payment(merchant, order, p.externalPaymentId, p.amount, p.currency, mapped)];
      } else {
        payment := found.value;
        if !(payments[payment].status == PayCaptured && mapped == PayFailed) {
          payments := payments[payment := payments[payment].(status := mapped)];
        } else {
          assert payments[payment := payments[payment].(status := PayCaptured)] == payments;
        }
      }
    }

    // ---- Case creation (case_creation_service.py) ----

    method CreateOrUpdateRecoveryCase(
      merchant: nat, order: nat, payment: nat, p: Payload, now: int, staleMiss: bool) returns (id: Option<nat>)
      requires payment < |payments|
      modifies `cases, `ledger
      ensures Did(S.CreateOrUpdateCase(old(View()), merchant, order, payment, p, now, staleMiss),
        old(View()), View(), id)
      ensures id.Some? ==>
        && id.value < |cases| && cases[id.value].initialPayment == payment
        && cases[id.value].category == Some(p.category) && cases[id.value].isTransient == p.isTransient
        && cases[id.value].diagnosis == p.diagnosis
    {
      S.FirstActiveFound(cases, merchant, order);
      var active := S.FirstActive(cases, merchant, order);
      if !staleMiss && S.AmbiguousActive(cases, merchant, order) {
        return None;
      }
      if !staleMiss && active.Some? {
        var row := cases[active.value];
        row := row.(initialPayment := payment);
        row := row.(category := Some(p.category), isTransient := p.isTransient, diagnosis := p.diagnosis);
        cases := cases[active.value := row];
        RecordEvent(merchant, CaseEntity(active.value), FailureAppended, S.CASE_SERVICE);
        return active;
      }
      if active.Some? {
        return None;
      }
      id := Some(|cases|);
      var paid := payments[payment];
      var row := Case(merchant, order, payment, paid.amount, 0, paid.currency, DETECTED, [DETECTED],
        Some(p.category), p.isTransient, p.diagnosis, None, None, None, 0, 2,
        now + S.RECOVERY_WINDOW, None, None, false);
      cases := cases + [row];
      SetStatus(id.value, ENRICHING);
      SetStatus(id.value, DIAGNOSING);
      assert cases == old(cases) + [row.To(ENRICHING).To(DIAGNOSING)];
      RecordEvent(merchant, CaseEntity(id.value), CaseCreated, S.CASE_SERVICE);
    }

    // ---- Verification (verification_service.py) ----

    /** The two searches for the attempt to credit, newest attempt first. */
    method FindMatchingAttempt(caseId: nat, ref: string) returns (found: Option<nat>)
      ensures found == S.MatchingAttempt(attempts, caseId, ref)
    {
      found := None;
      var n := |attempts|;
      assert attempts[..n] == attempts;
      while ref != "" && n > 0 && found.None?
        invariant 0 <= n <= |attempts|
        invariant found.Some? ==> ref != "" && S.LatestAttempt(attempts, caseId, Some(ref)) == found
        invariant found.None? && ref != "" ==>
          S.LatestAttempt(attempts, caseId, Some(ref)) == S.LatestAttempt(attempts[..n], caseId, Some(ref))
        decreases n
      {
        assert attempts[..n][..n - 1] == attempts[..n - 1];
        n := n - 1;
        if attempts[n].caseId == caseId && attempts[n].gatewayRef == Some(ref) {
          found := Some(n);
        }
      }
      if found.None? {
        found := S.LatestAttempt(attempts, caseId, None);
      }
    }

    method AdvanceToRecovered(caseId: nat, amount: int)
      requires caseId < |cases|
      modifies `cases
      ensures cases == old(cases)[caseId := S.Recover(old(cases)[caseId], amount)]
    {
      if cases[caseId].status != VERIFYING && CanTransition(cases[caseId].status, VERIFYING) {
        SetStatus(caseId, VERIFYING);
      }
      if CanTransition(cases[caseId].status, RECOVERED) {
        SetStatus(caseId, RECOVERED);
      }
      cases := cases[caseId := cases[caseId].(amountRecovered := amount)];
    }

    /** Creates the case's outcome, or overwrites all of it but the recovery method. */
    method WriteOutcome(
      caseId: nat, merchant: nat, payment: nat, matching: Option<nat>, amount: int, cost: int, net: int,
      how: Option<ActionType>) returns (id: nat)
      modifies `outcomes
      ensures var existing := S.FindOutcome(old(outcomes), caseId);
        if existing.None? then
          && id == |old(outcomes)|
          && outcomes == old(outcomes) + [Outcome(caseId, merchant, payment, matching, true, amount, cost, net, how)]
        else
          && id == existing.value && id < |old(outcomes)|
          && outcomes == old(outcomes)[id := old(outcomes)[id].(isSuccessful := true, amount := amount, cost := cost,
               net := net, settlingPayment := payment, successfulAttempt := matching)]
    {
      S.FindOutcomeFound(outcomes, caseId);
      var existing := S.FindOutcome(outcomes, caseId);
      if existing.None? {
        id := |outcomes|;
        outcomes := outcomes + [Outcome(caseId, merchant, payment, matching, true, amount, cost, net, how)];
      } else {
        id := existing.value;
        var row := outcomes[id];
        row := row.(isSuccessful := true, amount := amount);
        row := row.(cost := cost, net := net);
        row := row.(settlingPayment := payment, successfulAttempt := matching);
        outcomes := outcomes[id := row];
      }
    }

    method VerifyAndRecoverCase(caseId: nat, payment: nat, ref: string) returns (isVerified: bool)
      requires caseId < |cases| && payment < |payments|
      modifies `cases, `attempts, `outcomes, `ledger
      ensures (View(), isVerified) == S.VerifyAndRecover(old(View()), caseId, payment, ref)
    {
      ghost var before := View();
      var paid, merchant := payments[payment], cases[caseId].merchant;
      if cases[caseId].status == RECOVERED {
        return true;
      }
      if paid.status != PayCaptured || paid.currency != cases[caseId].currency {
        return false;
      }
      S.MatchingAttemptFound(attempts, caseId, ref);
      var matching := FindMatchingAttempt(caseId, ref);
      var how := if matching.Some? then Some(attempts[matching.value].action) else None;
      var cost := S.StrategyCost(how);
      var net := if paid.amount - cost > 0 then paid.amount - cost else 0;
      AdvanceToRecovered(caseId, paid.amount);
      if matching.Some? && CanTransitionAttempt(attempts[matching.value].status, SUCCEEDED) {
        attempts := attempts[matching.value := attempts[matching.value].(status := SUCCEEDED)];
      }
      var outcomeId := WriteOutcome(caseId, merchant, payment, matching, paid.amount, cost, net, how);
      RecordEvent(merchant, OutcomeEntity(outcomeId), CaptureVerified, S.VERIFIER);
      isVerified := true;
      SettlementWritten(before, View(), caseId, payment, ref, matching, how, cost, net);
    }

    method VerifyFromWebhookEvent(merchant: nat, p: Payload, freshId: string) returns (r: Option<Option<bool>>)
      modifies this
      ensures Did(S.VerifyFromWebhook(old(View()), merchant, p, freshId), old(View()), View(), r)
    {
      S.FindOrderFound(orders, merchant, p.externalOrderId);
      var order := S.FindOrder(orders, merchant, p.externalOrderId);
      if !S.IsCaptureEvent(p) || order.None? {
        return Some(None);
      }
      if S.AmbiguousVerifiable(cases, order.value) {
        return None;
      }
      S.FirstVerifiableFound(cases, order.value);
      var verifiable := S.FirstVerifiable(cases, order.value);
      if verifiable.None? {
        return Some(None);
      }
      S.FindPaymentFound(payments, merchant, p.externalPaymentId);
      var found := S.FindPayment(payments, merchant, p.externalPaymentId);
      var payment: nat;
      if found.None? {
        payment := |payments|;
        var externalId := if p.externalPaymentId != "" then p.externalPaymentId else freshId;
        payments := payments + [Payment(merchant, order.value, externalId, p.amount, p.currency, PayCaptured)];
      } else {
        payment := found.value;
        payments := payments[payment := payments[payment].(status := PayCaptured)];
      }
      var verified := VerifyAndRecoverCase(verifiable.value, payment, p.linkId);
      r := Some(Some(verified));
    }

    method PollAndReconcileCase(caseId: nat, merchantExists: bool, linkPaid: bool, freshId: string)
      returns (r: Option<bool>)
      modifies this
      ensures Did(S.PollAndReconcile(old(View()), caseId, merchantExists, linkPaid, freshId), old(View()), View(), r)
      ensures !linkPaid ==> View() == old(View()) && r != Some(true)
    {
      if caseId >= |cases| || !merchantExists {
        return None;
      }
      var link: Option<string> := None;
      var n := |attempts|;
      assert attempts[..n] == attempts;
      while n > 0 && link.None?
        invariant 0 <= n <= |attempts|
        invariant S.PollLink(attempts, caseId) == if link.Some? then link else S.PollLink(attempts[..n], caseId)
        decreases n
      {
        assert attempts[..n][..n - 1] == attempts[..n - 1];
        n := n - 1;
        var att := attempts[n];
        if att.caseId == caseId && att.gatewayRef.Some? && att.gatewayRef.value != "" && att.action == PAYMENT_LINK {
          link := att.gatewayRef;
        }
      }
      var order := cases[caseId].order;
      if link.None? || !linkPaid || order >= |orders| {
        return Some(false);
      }
      if S.FindPayment(payments, cases[caseId].merchant, freshId).Some? {
        return None;
      }
      orders := orders[order := orders[order].(status := OrderPaid)];
      var payment := |payments|;
      payments := payments + [Payment(cases[caseId].merchant, order, freshId, cases[caseId].amountAtRisk,
        cases[caseId].currency, PayCaptured)];
      var verified := VerifyAndRecoverCase(caseId, payment, link.value);
      r := Some(verified);
    }

    // ---- Action orchestrator (action_orchestrator.py) ----

    /** APPROVED becomes EXECUTING; for ESCALATED the table has no such edge and the validation raises. */
    method StartExecuting(id: nat) returns (ok: bool)
      requires id < |cases|
      modifies `cases
      ensures ok <==> old(cases)[id].status != ESCALATED
      ensures cases == if old(cases)[id].status == APPROVED
        then old(cases)[id := old(cases)[id].To(EXECUTING)] else old(cases)
    {
      ok := true;
      if cases[id].status in {APPROVED, ESCALATED} {
        if CanTransition(cases[id].status, EXECUTING) {
          SetStatus(id, EXECUTING);
        } else {
          ok := false;
        }
      }
    }

    /** The attempt row: created as DRAFT, recorded in the ledger, then DISPATCHED. */
    method OpenAttempt(cmd: S.Command) returns (at: nat)
      requires cmd.caseId < |cases|
      modifies `attempts, `ledger
      ensures var merchant := cases[cmd.caseId].merchant;
        && at == |old(attempts)|
        && attempts == old(attempts) + [Attempt(cmd.caseId, merchant, cmd.action, cmd.key, DISPATCHED, None)]
        && ledger == old(ledger) + [Audit(merchant, AttemptEntity(at), AttemptCreated, S.ORCHESTRATOR)]
    {
      at := |attempts|;
      attempts := attempts + [Attempt(cmd.caseId, cases[cmd.caseId].merchant, cmd.action, cmd.key, DRAFT, None)];
      RecordEvent(cases[cmd.caseId].merchant, AttemptEntity(at), AttemptCreated, S.ORCHESTRATOR);
      attempts := attempts[at := attempts[at].(status := DISPATCHED)];
    }

    /** The executor's result written to the attempt, where the attempt table allows the status. */
    method CloseAttempt(at: nat, res: S.ExecResult)
      requires at < |attempts| && CanTransitionAttempt(attempts[at].status, res.attemptStatus)
      modifies `attempts
      ensures attempts == old(attempts)[at := old(attempts)[at].(
        status := res.attemptStatus, gatewayRef := res.gatewayRef)]
    {
      attempts := attempts[at := attempts[at].(status := res.attemptStatus)];
      attempts := attempts[at := attempts[at].(gatewayRef := res.gatewayRef)];
    }

    /** The executor's own write, the move to its target where the table allows it, and the counters. */
    method CloseCase(cmd: S.Command, res: S.ExecResult, now: int, dispatchedAt: int)
      requires cmd.caseId < |cases| && cases[cmd.caseId].status != APPROVED
      modifies `cases
      ensures cases == old(cases)[cmd.caseId := S.AfterExecution(old(cases)[cmd.caseId], cmd, res, now, dispatchedAt)]
    {
      var id := cmd.caseId;
      if cmd.action == WAIT_AND_REASSESS {
        cases := cases[id := cases[id].(scheduledAt := S.ScheduledAt(cases[id], cmd, dispatchedAt))];
      }
      if CanTransition(cases[id].status, res.target) {
        SetStatus(id, res.target);
      }
      cases := cases[id := cases[id].(attemptCount := cases[id].attemptCount + 1, lastAttemptAt := Some(now))];
    }

    method CompleteAttempt(cmd: S.Command, at: nat, res: S.ExecResult, now: int, dispatchedAt: int)
      requires cmd.caseId < |cases| && cases[cmd.caseId].status != APPROVED
      requires at < |attempts| && CanTransitionAttempt(attempts[at].status, res.attemptStatus)
      modifies `cases, `attempts, `ledger
      ensures attempts == old(attempts)[at := old(attempts)[at].(
        status := res.attemptStatus, gatewayRef := res.gatewayRef)]
      ensures cases == old(cases)[cmd.caseId := S.AfterExecution(old(cases)[cmd.caseId], cmd, res, now, dispatchedAt)]
      ensures ledger == old(ledger)
        + [Audit(old(cases)[cmd.caseId].merchant, AttemptEntity(at),
             if res.isSuccess then GatewayAccepted else ExecutionFailed, S.ORCHESTRATOR)]
    {
      CloseAttempt(at, res);
      CloseCase(cmd, res, now, dispatchedAt);
      RecordEvent(cases[cmd.caseId].merchant, AttemptEntity(at),
        if res.isSuccess then GatewayAccepted else ExecutionFailed, S.ORCHESTRATOR);
    }

    /** Runs under the lock on the case row. An exception after the attempt row is written undoes it. */
    method ExecuteCommand(cmd: S.Command, env: S.Env, now: int, dispatchedAt: int) returns (r: Option<S.ExecutionValue>)
      modifies this
      ensures Did(S.ExecuteCommand(old(View()), cmd, env, now, dispatchedAt), old(View()), View(), r)
      ensures r.Some? && !r.value.isDuplicate ==>
        && cmd.caseId < |old(cases)| && |attempts| == |old(attempts)| + 1
        && (cmd.action == PAYMENT_LINK ==>
              (attempts[|old(attempts)|].status == ACKNOWLEDGED <==>
                 old(cases)[cmd.caseId].order < |old(orders)| && env.merchantExists && env.reply.GatewayOk?))
    {
      var saved := View();
      if cmd.caseId >= |cases| {
        return None;
      }
      var existing := S.FindAttempt(attempts, cmd.key);
      if existing.Some? {
        return Some(S.ExecutionValue(existing.value, true));
      }
      if Terminal(cases[cmd.caseId].status) {
        return None;
      }
      var ok := StartExecuting(cmd.caseId);
      if !ok {
        return None;
      }
      ghost var started := cases[cmd.caseId];
      var at := OpenAttempt(cmd);
      var result := S.RunExecutor(View(), cmd, env);
      OpenAttemptIsInvisible(saved, View(), cmd, env);
      if result.None? {
        Rollback(saved);
        return None;
      }
      CompleteAttempt(cmd, at, result.value, now, dispatchedAt);
      r := Some(S.ExecutionValue(at, false));
      ExecutionWritten(saved, View(), cmd, env, now, dispatchedAt, started, result.value);
    }

    // ---- Decisions (decision_service.py, ai_decision_service.py) ----

    /** The walk to the policy check and the validated move to the verdict's status, which both services spell out. */
    method MoveToVerdict(id: nat, verdict: PolicyResult) returns (ok: bool)
      requires id < |cases|
      modifies `cases
      ensures ok <==> CanTransition(S.AdvanceToPolicyCheck(old(cases)[id]).status, S.StatusFor(verdict))
      ensures ok ==> cases == old(cases)[id := S.AdvanceToPolicyCheck(old(cases)[id]).To(S.StatusFor(verdict))]
      ensures ok && verdict.authorized == DO_NOTHING && verdict.verdict != VerdictApproved ==>
        cases[id].status in {REJECTED, ESCALATED}
    {
      if cases[id].status == DIAGNOSING {
        SetStatus(id, STRATEGY_GENERATED);
      }
      if cases[id].status == STRATEGY_GENERATED {
        SetStatus(id, POLICY_CHECK_PENDING);
      }
      var target := REJECTED;
      if verdict.verdict == VerdictApproved {
        target := APPROVED;
      } else if verdict.verdict == VerdictModified {
        target := if verdict.authorized != DO_NOTHING then APPROVED else REJECTED;
      } else if verdict.verdict == VerdictEscalated {
        target := ESCALATED;
      }
      ok := CanTransition(cases[id].status, target);
      if ok {
        SetStatus(id, target);
      }
    }

    method StoreEstimate(id: nat, top: ErvResult)
      requires id < |cases|
      modifies `cases
      ensures cases == old(cases)[id := old(cases)[id].(
        probability := Some(top.probability), expectedValue := Some(top.net))]
    {
      cases := cases[id := cases[id].(probability := Some(top.probability), expectedValue := Some(top.net))];
    }

    method StoreDecision(row: DecisionRow, audit: AuditAction, actor: Actor)
      modifies `decisions, `ledger
      ensures decisions == old(decisions) + [row]
      ensures ledger == old(ledger) + [Audit(row.merchant, DecisionEntity(|old(decisions)|), audit, actor)]
    {
      decisions := decisions + [row];
      RecordEvent(row.merchant, DecisionEntity(|decisions| - 1), audit, actor);
    }

    static method PriceAndRank(c: Case, ctx: Context, p: Policy, model: Model)
      returns (candidates: seq<ActionType>, ranked: seq<ErvResult>)
      ensures candidates == Candidates(c, ctx, p) && ranked == Rankings(model, c, ctx, p) && ranked != []
    {
      RankingsExact(model, c, ctx, p);
      candidates := GenerateCandidates(c, ctx, p);
      var results := ScoreCandidates(candidates, model, c, ctx, p);
      ranked := RankCandidates(results);
    }

    /** The deterministic service, step by step. */
    method EvaluateCaseDecision(id: nat, ctx: Context, p: Policy, model: Model, now: int)
      returns (r: Option<S.DecisionValue>)
      requires id < |cases|
      modifies this
      ensures Did(S.EvaluateCaseDecision(old(View()), id, ctx, p, model, now), old(View()), View(), r)
    {
      if !S.SnapshotOk(cases[id]) {
        return None;
      }
      var candidates, ranked := PriceAndRank(cases[id], ctx, p, model);
      r := ConcludeCaseDecision(id, ctx, p, now, candidates, ranked);
    }

    /** An invalid transition raises and undoes the steps before it. */
    method ConcludeCaseDecision(
      id: nat, ctx: Context, p: Policy, now: int, candidates: seq<ActionType>, ranked: seq<ErvResult>)
      returns (r: Option<S.DecisionValue>)
      requires id < |cases| && ranked != []
      modifies this
      ensures Did(S.ConcludeCaseDecision(old(View()), id, ctx, p, now, candidates, ranked), old(View()), View(), r)
      ensures r.Some? && (now >= old(cases)[id].deadline || old(cases)[id].attemptCount >= p.maxAttempts) ==>
        id < |cases| && cases[id].status == REJECTED && r.value.command.None?
    {
      var saved, snapshot, top := View(), cases[id], ranked[0];
      var verdict := EvaluatePolicy(top.action, snapshot, ctx, p, ranked, now);
      var ok := MoveToVerdict(id, verdict);
      if !ok {
        Rollback(saved);
        return None;
      }
      StoreEstimate(id, top);
      var command := None;
      if verdict.authorized != DO_NOTHING && verdict.verdict != VerdictRejected {
        command := Some(S.CreateCommand(id, snapshot, verdict.authorized, snapshot.attemptCount + 1,
          S.CommandPayload(verdict.rule, verdict.delaySeconds, None)));
      }
      StoreDecision(DecisionRow(
        id, snapshot.merchant, snapshot.attemptCount + 1, candidates, top.action, CERTAIN, OfTop(top), ranked, None,
        verdict.verdict, verdict.authorized, verdict.rule, verdict.delaySeconds), DecisionEvaluated, S.POLICY_ENGINE);
      r := Some(S.DecisionValue(candidates, ranked, top.action, verdict, command));
      CaseDecisionWritten(saved, View(), id, ctx, p, now, candidates, ranked, verdict, command);
    }

    /** The recommendation and its metadata, with the three ways to fall back on the top result. */
    method SeekAdvice(reply: AiReply, candidates: seq<ActionType>, top: ErvResult, c: Case)
      returns (advice: Recommendation, metadata: Metadata)
      ensures (advice, metadata) == S.Advise(reply, candidates, top, c)
    {
      match reply {
        case AiDisabled =>
          var diagnosis := S.CategoryText(c.category);
          if c.diagnosis.Some? && c.diagnosis.value != "" {
            diagnosis := c.diagnosis.value;
          }
          advice := Recommendation(top.action, CERTAIN, "Deterministic analysis: " + diagnosis, OfTop(top), None, 15);
          metadata := Metadata("deterministic_engine", "erv_baseline_v1", 0, true, Some("AI_DISABLED_IN_CONFIG"));
        case AiFailed(kind, message) =>
          advice := Recommendation(
            top.action, CERTAIN / 2, "Deterministic fallback diagnosis for '" + S.CategoryText(c.category) + "'",
            OfFallback(kind, top), None, 15);
          metadata := Metadata("deterministic_fallback", "fallback_erv_v1", 0, true, Some(kind + ": " + message));
        case AiRecommends(given, meta) =>
          advice, metadata := given, meta;
          if given.action !in candidates {
            advice := Recommendation(
              top.action, CERTAIN / 2, given.diagnosis,
              OfFallback("from invalid AI action '" + S.ActionText(given.action) + "'", top), None, 15);
            metadata := metadata.(
              isFallback := true, fallbackReason := Some("INVALID_CANDIDATE_ACTION_" + S.ActionText(given.action)));
          }
      }
    }

    /** The AI service, step by step. */
    method EvaluateWithAi(id: nat, ctx: Context, p: Policy, model: Model, now: int, reply: AiReply)
      returns (r: Option<S.DecisionValue>)
      requires id < |cases|
      modifies this
      ensures Did(S.EvaluateWithAi(old(View()), id, ctx, p, model, now, reply), old(View()), View(), r)
    {
      if !S.SnapshotOk(cases[id]) {
        return None;
      }
      var candidates, ranked := PriceAndRank(cases[id], ctx, p, model);
      var advice, metadata := SeekAdvice(reply, candidates, ranked[0], cases[id]);
      r := ConcludeWithAi(id, ctx, p, now, candidates, ranked, advice, metadata);
    }

    method ConcludeWithAi(
      id: nat, ctx: Context, p: Policy, now: int, candidates: seq<ActionType>, ranked: seq<ErvResult>,
      advice: Recommendation, metadata: Metadata) returns (r: Option<S.DecisionValue>)
      requires id < |cases| && ranked != []
      modifies this
      ensures Did(S.ConcludeWithAi(old(View()), id, ctx, p, now, candidates, ranked, advice, metadata),
        old(View()), View(), r)
      ensures r.Some? && (now >= old(cases)[id].deadline || old(cases)[id].attemptCount >= p.maxAttempts) ==>
        id < |cases| && cases[id].status == REJECTED && r.value.command.None?
    {
      var saved, snapshot, top := View(), cases[id], ranked[0];
      var verdict := EvaluatePolicy(advice.action, snapshot, ctx, p, ranked, now);
      var ok := MoveToVerdict(id, verdict);
      if !ok {
        Rollback(saved);
        return None;
      }
      StoreEstimate(id, top);
      cases := cases[id := cases[id].(confidence := Some(advice.confidence), diagnosis := Some(advice.diagnosis))];
      var command := None;
      if verdict.authorized != DO_NOTHING && verdict.verdict != VerdictRejected {
        command := Some(S.CreateCommand(id, snapshot, verdict.authorized, snapshot.attemptCount + 1,
          S.CommandPayload(verdict.rule, verdict.delaySeconds, Some(S.AiNote(advice.action, metadata.isFallback)))));
      }
      StoreDecision(DecisionRow(
        id, snapshot.merchant, snapshot.attemptCount + 1, candidates, advice.action,
        advice.confidence, advice.rationale,
        ranked, Some(AiTrace(advice.diagnosis, advice.alternative, advice.latencyMinutes, top.action, metadata)),
        verdict.verdict, verdict.authorized, verdict.rule, verdict.delaySeconds),
        AiDecisionEvaluated, AiAgent(metadata.model));
      r := Some(S.DecisionValue(candidates, ranked, advice.action, verdict, command));
      AiDecisionWritten(saved, View(), id, ctx, p, now, candidates, ranked, advice, metadata, verdict, command);
    }

    // ---- Worker tasks (ingestion.py) ----

    method ProcessRawWebhook(rawId: nat, now: int, missed: S.Missed, freshId: string) returns (r: Option<S.Processed>)
      modifies this
      ensures Did(S.ProcessRawWebhook(old(View()), rawId, now, missed, freshId), old(View()), View(), r)
    {
      var saved := View();
      if rawId >= |events| {
        return Some(S.NotFound);
      }
      if events[rawId].processed {
        return Some(S.AlreadyProcessed);
      }
      var merchant := events[rawId].merchant;
      if events[rawId].payload.None? {
        events := events[rawId := events[rawId].(processed := true)];
        return Some(S.ParseError);
      }
      var p := events[rawId].payload.value;
      var handled := HandleEvent(merchant, p, now, missed, freshId);
      if !handled {
        Rollback(saved);
        return None;
      }
      S.HandleEventKeepsEvents(saved, merchant, p, now, missed, freshId);
      events := events[rawId := events[rawId].(processed := true)];
      r := Some(S.Success);
    }

    /** The body of the pipeline; when it raises, its caller rolls back. */
    method HandleEvent(merchant: nat, p: Payload, now: int, missed: S.Missed, freshId: string) returns (ok: bool)
      modifies this
      ensures var t := S.HandleEvent(old(View()), merchant, p, now, missed, freshId);
        && (ok <==> !S.InsertConflict(old(View()), merchant, p, missed) && t.Commit?)
        && (ok ==> View() == t.db)
    {
      S.SyncAllValid(View(), merchant, p, missed.customer);
      S.SyncAllTouches(View(), merchant, p, missed.customer);
      var customer := SyncCustomer(merchant, p, missed.customer);
      if missed.order && S.FindOrder(orders, merchant, S.OrderKey(p)).Some? {
        return false;
      }
      var order := SyncOrder(merchant, customer, p);
      if missed.payment && S.FindPayment(payments, merchant, p.externalPaymentId).Some? {
        return false;
      }
      var payment := SyncPayment(merchant, order, p);
      if S.IsFailureEvent(p) {
        var id := CreateOrUpdateRecoveryCase(merchant, order, payment, p, now, missed.active);
        ok := id.Some?;
      } else if S.IsCaptureEvent(p) {
        var verified := VerifyFromWebhookEvent(merchant, p, freshId);
        ok := verified.Some?;
      } else {
        ok := true;
      }
    }

    /** The unvalidated assignment back to DETECTED, case by case. */
    method ReassessScheduledCases(now: int) returns (reassessed: nat)
      modifies `cases
      ensures View() == S.ReassessScheduled(old(View()), now)
      ensures reassessed == CountDue(old(cases), now)
    {
      reassessed := 0;
      for i := 0 to |cases|
        invariant |cases| == |old(cases)|
        invariant forall j | 0 <= j < i :: cases[j] == S.Reassess(old(cases)[j], now)
        invariant forall j | i <= j < |cases| :: cases[j] == old(cases)[j]
        invariant reassessed == CountDue(old(cases)[..i], now)
      {
        assert old(cases)[..i + 1][..i] == old(cases)[..i];
        var row := cases[i];
        if row.status == WAITING_EXTERNAL && row.scheduledAt.Some? {
          if row.scheduledAt.value <= now {
            row := row.To(DETECTED);
            row := row.(scheduledAt := None);
            cases := cases[i := row];
            reassessed := reassessed + 1;
          }
        }
        assert row == S.Reassess(old(cases)[i], now);
      }
      assert old(cases)[..|old(cases)|] == old(cases);
      assert cases == S.ReassessScheduled(old(View()), now).cases;
    }
  }
}
