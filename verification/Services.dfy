/**
 What each orchestration service does to the database, as functions
 (backend/packages/orchestration/services and executors, backend/apps/worker/tasks/ingestion.py).
 */
module Services {
  import opened Domain
  import opened StateMachine
  import opened Tables
  import opened Decision
  import opened Text
  import Sync = OrderPaymentSync

  // ---- Commands (domain/commands.py) ----

  function ActionText(a: ActionType): string {
    match a
    case PAYMENT_LINK => "PAYMENT_LINK"
    case CUSTOMER_REMINDER => "CUSTOMER_REMINDER"
    case WAIT_AND_REASSESS => "WAIT_AND_REASSESS"
    case HUMAN_ESCALATION => "HUMAN_ESCALATION"
    case DO_NOTHING => "DO_NOTHING"
  }

  const SEPARATOR := '_'

  /** The idempotency key; a row id's text is decimal and, like a UUID's, holds no underscore. */
  function CommandKey(caseId: nat, number: nat, a: ActionType): string {
    "cmd" + [SEPARATOR] + (Decimal(caseId) + [SEPARATOR] + (Decimal(number) + [SEPARATOR] + ActionText(a)))
  }

  /** What the AI service notes on a command besides the rule and the delay. */
  datatype AiNote = AiNote(recommended: ActionType, isFallback: bool)

  datatype CommandPayload = CommandPayload(rule: Rule, delaySeconds: Option<int>, ai: Option<AiNote>)

  datatype Command = Command(
    caseId: nat, action: ActionType, key: string, amount: int, currency: string, deadline: int,
    payload: CommandPayload)

  function CreateCommand(caseId: nat, c: Case, a: ActionType, number: nat, payload: CommandPayload): Command {
    Command(caseId, a, CommandKey(caseId, number, a), c.amountAtRisk, c.currency, c.deadline, payload)
  }

  lemma ActionTextInjective(a: ActionType, b: ActionType)
    requires ActionText(a) == ActionText(b)
    ensures a == b
  {
    assert |ActionText(a)| == |ActionText(b)|;
    assert ActionText(a)[0] == ActionText(b)[0];
  }

  /** One key, one case, one attempt number, one action. */
  lemma CommandKeyInjective(c: nat, n: nat, a: ActionType, c': nat, n': nat, a': ActionType)
    requires CommandKey(c, n, a) == CommandKey(c', n', a')
    ensures c == c' && n == n' && a == a'
  {
    var tail, tail' := Decimal(n) + [SEPARATOR] + ActionText(a), Decimal(n') + [SEPARATOR] + ActionText(a');
    var body, body' := Decimal(c) + [SEPARATOR] + tail, Decimal(c') + [SEPARATOR] + tail';
    DecimalRoundTrip(c);
    DecimalRoundTrip(c');
    DecimalRoundTrip(n);
    DecimalRoundTrip(n');
    CutFirstOf("cmd", body, SEPARATOR);
    CutFirstOf("cmd", body', SEPARATOR);
    CutFirstOf(Decimal(c), tail, SEPARATOR);
    CutFirstOf(Decimal(c'), tail', SEPARATOR);
    CutFirstOf(Decimal(n), ActionText(a), SEPARATOR);
    CutFirstOf(Decimal(n'), ActionText(a'), SEPARATOR);
    ActionTextInjective(a, a');
  }

  // ---- Decision services (decision_service.py, ai_decision_service.py) ----

  /** The value objects of the case snapshot can be built. */
  predicate SnapshotOk(c: Case) {
    && c.amountAtRisk >= 0 && c.amountRecovered >= 0 && |c.currency| == 3
    && (c.probability.Some? ==> 0 <= c.probability.value <= CERTAIN)
    && (c.expectedValue.Some? ==> c.expectedValue.value >= 0)
  }

  function StatusFor(r: PolicyResult): CaseStatus {
    match r.verdict
    case VerdictApproved => APPROVED
    case VerdictModified => if r.authorized != DO_NOTHING then APPROVED else REJECTED
    case VerdictEscalated => ESCALATED
    case VerdictRejected => REJECTED
  }

  function AdvanceToPolicyCheck(c: Case): Case {
    var c1 := if c.status == DIAGNOSING then c.To(STRATEGY_GENERATED) else c;
    if c1.status == STRATEGY_GENERATED then c1.To(POLICY_CHECK_PENDING) else c1
  }

  datatype DecisionValue = DecisionValue(
    candidates: seq<ActionType>, rankings: seq<ErvResult>, proposed: ActionType,
    policy: PolicyResult, command: Option<Command>)

  const CASE_SERVICE := SystemActor("case-creation-service")
  const POLICY_ENGINE := SystemActor("deterministic-policy-engine")
  const ORCHESTRATOR := SystemActor("action-orchestrator")
  const VERIFIER := SystemActor("verification-service")

  function Record(db: Db, merchant: nat, entity: Entity, action: AuditAction, actor: Actor): Db {
    db.(ledger := db.ledger + [Audit(merchant, entity, action, actor)])
  }

  /** The deterministic service (decision_service.py): snapshot, candidates, prices, ranking, then the rest. */
  function EvaluateCaseDecision(db: Db, id: nat, ctx: Context, p: Policy, model: Model, now: int): Txn<DecisionValue>
    requires id < |db.cases|
  {
    var c := db.cases[id];
    RankingsExact(model, c, ctx, p);
    if !SnapshotOk(c) then Abort
    else
      var candidates := Candidates(c, ctx, p);
      ConcludeCaseDecision(db, id, ctx, p, now, candidates, RankCandidates(ErvTable(candidates, model, c, ctx, p)))
  }

  /** The deterministic service from the ranking on (decision_service.py, lines 137-275). */
  function ConcludeCaseDecision(
    db: Db, id: nat, ctx: Context, p: Policy, now: int, candidates: seq<ActionType>, ranked: seq<ErvResult>)
    : Txn<DecisionValue>
    requires id < |db.cases| && ranked != []
  {
    var c, top := db.cases[id], ranked[0];
    var pending := AdvanceToPolicyCheck(c);
    var r := EvaluatePolicy(top.action, c, ctx, p, ranked, now);
    var target := StatusFor(r);
    if !CanTransition(pending.status, target) then Abort
    else
      var decided := pending.To(target).(probability := Some(top.probability), expectedValue := Some(top.net));
      var command :=
        if r.authorized != DO_NOTHING && r.verdict != VerdictRejected
        then Some(CreateCommand(id, c, r.authorized, c.attemptCount + 1, CommandPayload(r.rule, r.delaySeconds, None)))
        else None;
      var row := DecisionRow(
        id, c.merchant, c.attemptCount + 1, candidates, top.action, CERTAIN, OfTop(top), ranked, None,
        r.verdict, r.authorized, r.rule, r.delaySeconds);
      Commit(
        Record(db.(cases := db.cases[id := decided], decisions := db.decisions + [row]),
          c.merchant, DecisionEntity(|db.decisions|), DecisionEvaluated, POLICY_ENGINE),
        DecisionValue(candidates, ranked, top.action, r, command))
  }

  function CategoryText(category: Option<Category>): string {
    match category
    case None => "None"
    case Some(USER_AUTHENTICATION_DROPOFF) => "USER_AUTHENTICATION_DROPOFF"
    case Some(INSUFFICIENT_FUNDS) => "INSUFFICIENT_FUNDS"
    case Some(TECHNICAL_GATEWAY_TIMEOUT) => "TECHNICAL_GATEWAY_TIMEOUT"
    case Some(BANK_SYSTEM_OUTAGE) => "BANK_SYSTEM_OUTAGE"
    case Some(PERMANENT_INSTRUMENT_DECLINE) => "PERMANENT_INSTRUMENT_DECLINE"
    case Some(FRAUD_RISK_BLOCK) => "FRAUD_RISK_BLOCK"
    case Some(UNKNOWN) => "UNKNOWN"
  }

  /** The recommendation that goes to policy, with its metadata: the AI's, or the fallback that replaces it. */
  function Advise(reply: AiReply, candidates: seq<ActionType>, top: ErvResult, c: Case): (Recommendation, Metadata) {
    match reply
    case AiDisabled =>
      (Recommendation(
         top.action, CERTAIN,
         "Deterministic analysis: "
         + (if c.diagnosis.Some? && c.diagnosis.value != "" then c.diagnosis.value else CategoryText(c.category)),
         OfTop(top), None, 15),
       Metadata("deterministic_engine", "erv_baseline_v1", 0, true, Some("AI_DISABLED_IN_CONFIG")))
    case AiFailed(kind, message) =>
      (Recommendation(
         top.action, CERTAIN / 2, "Deterministic fallback diagnosis for '" + CategoryText(c.category) + "'",
         OfFallback(kind, top), None, 15),
       Metadata("deterministic_fallback", "fallback_erv_v1", 0, true, Some(kind + ": " + message)))
    case AiRecommends(advice, metadata) =>
      if advice.action in candidates then (advice, metadata)
      else
        (Recommendation(
           top.action, CERTAIN / 2, advice.diagnosis,
           OfFallback("from invalid AI action '" + ActionText(advice.action) + "'", top), None, 15),
         Metadata(metadata.provider, metadata.model, metadata.latencyMs, true,
           Some("INVALID_CANDIDATE_ACTION_" + ActionText(advice.action))))
  }

  /** The AI service (ai_decision_service.py): snapshot, candidates, prices, ranking, advice, then the rest. */
  function EvaluateWithAi(
    db: Db, id: nat, ctx: Context, p: Policy, model: Model, now: int, reply: AiReply): Txn<DecisionValue>
    requires id < |db.cases|
  {
    var c := db.cases[id];
    RankingsExact(model, c, ctx, p);
    if !SnapshotOk(c) then Abort
    else
      var candidates := Candidates(c, ctx, p);
      var ranked := RankCandidates(ErvTable(candidates, model, c, ctx, p));
      var (advice, metadata) := Advise(reply, candidates, ranked[0], c);
      ConcludeWithAi(db, id, ctx, p, now, candidates, ranked, advice, metadata)
  }

  /** The AI service from the advice on (ai_decision_service.py, lines 249-399). */
  function ConcludeWithAi(
    db: Db, id: nat, ctx: Context, p: Policy, now: int, candidates: seq<ActionType>, ranked: seq<ErvResult>,
    advice: Recommendation, metadata: Metadata)
    : Txn<DecisionValue>
    requires id < |db.cases| && ranked != []
  {
    var c, top := db.cases[id], ranked[0];
    var pending := AdvanceToPolicyCheck(c);
    var r := EvaluatePolicy(advice.action, c, ctx, p, ranked, now);
    var target := StatusFor(r);
    if !CanTransition(pending.status, target) then Abort
    else
      var decided := pending.To(target).(
        probability := Some(top.probability), expectedValue := Some(top.net),
        confidence := Some(advice.confidence), diagnosis := Some(advice.diagnosis));
      var command :=
        if r.authorized != DO_NOTHING && r.verdict != VerdictRejected
        then Some(CreateCommand(id, c, r.authorized, c.attemptCount + 1,
               CommandPayload(r.rule, r.delaySeconds, Some(AiNote(advice.action, metadata.isFallback)))))
        else None;
      var row := DecisionRow(
        id, c.merchant, c.attemptCount + 1, candidates, advice.action, advice.confidence, advice.rationale, ranked,
        Some(AiTrace(advice.diagnosis, advice.alternative, advice.latencyMinutes, top.action, metadata)),
        r.verdict, r.authorized, r.rule, r.delaySeconds);
      Commit(
        Record(db.(cases := db.cases[id := decided], decisions := db.decisions + [row]),
          c.merchant, DecisionEntity(|db.decisions|), AiDecisionEvaluated, AiAgent(metadata.model)),
        DecisionValue(candidates, ranked, advice.action, r, command))
  }

  // ---- Executors (orchestration/executors) ----

  datatype GatewayReply = GatewayRaised | GatewayOk(linkId: Option<string>) | GatewayDeclined(isRetryable: bool)

  /** The world a command meets: whether the merchant row exists and how the gateway answers. */
  datatype Env = Env(merchantExists: bool, reply: GatewayReply)

  datatype ExecResult = ExecResult(
    isSuccess: bool, attemptStatus: AttemptStatus, target: CaseStatus, gatewayRef: Option<string>)

  predicate HoldsLink(a: Attempt, caseId: nat) {
    a.caseId == caseId && a.action == PAYMENT_LINK && a.gatewayRef.Some? && a.status in {ACKNOWLEDGED, SUCCEEDED}
  }

  /** The gateway reference of the newest acknowledged or succeeded payment link of a case. */
  function PriorLink(attempts: seq<Attempt>, caseId: nat): Option<string> {
    if attempts == [] then None
    else if HoldsLink(attempts[|attempts| - 1], caseId) then attempts[|attempts| - 1].gatewayRef
    else PriorLink(attempts[..|attempts| - 1], caseId)
  }

  lemma {:induction false} PriorLinkIsNewest(attempts: seq<Attempt>, caseId: nat)
    ensures PriorLink(attempts, caseId).None? <==> forall i | 0 <= i < |attempts| :: !HoldsLink(attempts[i], caseId)
    ensures PriorLink(attempts, caseId).Some? ==>
      exists i :: 0 <= i < |attempts| && HoldsLink(attempts[i], caseId)
        && attempts[i].gatewayRef == PriorLink(attempts, caseId)
        && forall j | i < j < |attempts| :: !HoldsLink(attempts[j], caseId)
  {
    if attempts != [] {
      var n := |attempts| - 1;
      if !HoldsLink(attempts[n], caseId) {
        PriorLinkIsNewest(attempts[..n], caseId);
        assert forall i | 0 <= i < n :: attempts[..n][i] == attempts[i];
      }
    }
  }

  function ExecutePaymentLink(db: Db, c: Case, env: Env): ExecResult {
    if c.order >= |db.orders| || !env.merchantExists then ExecResult(false, FAILED, UNRECOVERABLE, None)
    else match env.reply
      case GatewayRaised => ExecResult(false, FAILED, DIAGNOSING, None)
      case GatewayOk(linkId) => ExecResult(true, ACKNOWLEDGED, WAITING_EXTERNAL, linkId)
      case GatewayDeclined(isRetryable) =>
        ExecResult(false, FAILED, if isRetryable then DIAGNOSING else WAITING_EXTERNAL, None)
  }

  function ExecuteReminder(db: Db, caseId: nat, env: Env): ExecResult {
    var link := PriorLink(db.attempts, caseId);
    if link.None? || link.value == "" then ExecResult(false, FAILED, DIAGNOSING, None)
    else if !env.merchantExists then ExecResult(false, FAILED, UNRECOVERABLE, None)
    else ExecResult(env.reply.GatewayOk?, if env.reply.GatewayOk? then ACKNOWLEDGED else FAILED, WAITING_EXTERNAL, link)
  }

  /** The registered executor's result; DO_NOTHING has none and raises. */
  function RunExecutor(db: Db, cmd: Command, env: Env): Option<ExecResult>
    requires cmd.caseId < |db.cases|
  {
    match cmd.action
    case PAYMENT_LINK => Some(ExecutePaymentLink(db, db.cases[cmd.caseId], env))
    case CUSTOMER_REMINDER => Some(ExecuteReminder(db, cmd.caseId, env))
    case WAIT_AND_REASSESS => Some(ExecResult(true, SUCCEEDED, WAITING_EXTERNAL, None))
    case HUMAN_ESCALATION => Some(ExecResult(true, SUCCEEDED, ESCALATED, None))
    case DO_NOTHING => None
  }

  /** WAIT_AND_REASSESS schedules the case; a missing or zero delay means thirty minutes. */
  function ScheduledAt(c: Case, cmd: Command, dispatchedAt: int): Option<int> {
    if cmd.action != WAIT_AND_REASSESS then c.scheduledAt
    else
      var delay := if cmd.payload.delaySeconds in {None, Some(0)} then 1800 else cmd.payload.delaySeconds.value;
      Some(dispatchedAt + delay * MICROS_PER_SECOND)
  }

  // ---- Action orchestrator (action_orchestrator.py) ----

  datatype ExecutionValue = ExecutionValue(attemptId: nat, isDuplicate: bool)

  function FindAttempt(attempts: seq<Attempt>, key: string): Option<nat> {
    if attempts == [] then None
    else match FindAttempt(attempts[..|attempts| - 1], key)
      case Some(i) => Some(i)
      case None => if attempts[|attempts| - 1].key == key then Some(|attempts| - 1) else None
  }

  /** The case as the orchestrator leaves it after an execution. */
  function AfterExecution(c: Case, cmd: Command, r: ExecResult, now: int, dispatchedAt: int): Case {
    var executing := if c.status == APPROVED then c.To(EXECUTING) else c;
    var moved := if CanTransition(executing.status, r.target) then executing.To(r.target) else executing;
    moved.(attemptCount := moved.attemptCount + 1, lastAttemptAt := Some(now),
           scheduledAt := ScheduledAt(c, cmd, dispatchedAt))
  }

  function ExecuteCommand(db: Db, cmd: Command, env: Env, now: int, dispatchedAt: int): Txn<ExecutionValue> {
    if cmd.caseId >= |db.cases| then Abort
    else match FindAttempt(db.attempts, cmd.key)
      case Some(existing) => Commit(db, ExecutionValue(existing, true))
      case None =>
        var c := db.cases[cmd.caseId];
        if Terminal(c.status) || c.status == ESCALATED then Abort
        else match RunExecutor(db, cmd, env)
          case None => Abort
          case Some(r) =>
            var id := |db.attempts|;
            var attempt := Attempt(cmd.caseId, c.merchant, cmd.action, cmd.key, r.attemptStatus, r.gatewayRef);
            var created := Record(
              db.(attempts := db.attempts + [attempt]), c.merchant, AttemptEntity(id), AttemptCreated, ORCHESTRATOR);
            var settled := created.(cases := db.cases[cmd.caseId := AfterExecution(c, cmd, r, now, dispatchedAt)]);
            Commit(
              Record(settled, c.merchant, AttemptEntity(id), if r.isSuccess then GatewayAccepted else ExecutionFailed,
                ORCHESTRATOR),
              ExecutionValue(id, false))
  }

  // ---- Financial verification (verification_service.py) ----

  function StrategyCost(how: Option<ActionType>): int {
    match how
    case None => 0
    case Some(PAYMENT_LINK) => 200
    case Some(CUSTOMER_REMINDER) => 150
    case Some(WAIT_AND_REASSESS) => 0
    case Some(HUMAN_ESCALATION) => 10000
    case Some(DO_NOTHING) => 0
  }

  predicate Matches(a: Attempt, caseId: nat, ref: Option<string>) {
    a.caseId == caseId && (ref.None? || a.gatewayRef == ref)
  }

  /** The newest attempt of a case, or the newest carrying a given gateway reference. */
  function LatestAttempt(attempts: seq<Attempt>, caseId: nat, ref: Option<string>): Option<nat> {
    if attempts == [] then None
    else if Matches(attempts[|attempts| - 1], caseId, ref) then Some(|attempts| - 1)
    else LatestAttempt(attempts[..|attempts| - 1], caseId, ref)
  }

  /** The attempt credited with a settlement; an empty reference is no reference. */
  function MatchingAttempt(attempts: seq<Attempt>, caseId: nat, ref: string): Option<nat> {
    var exact := if ref == "" then None else LatestAttempt(attempts, caseId, Some(ref));
    if exact.Some? then exact else LatestAttempt(attempts, caseId, None)
  }

  function FindOutcome(outcomes: seq<Outcome>, caseId: nat): Option<nat> {
    if outcomes == [] then None
    else match FindOutcome(outcomes[..|outcomes| - 1], caseId)
      case Some(i) => Some(i)
      case None => if outcomes[|outcomes| - 1].caseId == caseId then Some(|outcomes| - 1) else None
  }

  /** To VERIFYING where the table allows it, then to RECOVERED where the table allows it. */
  function Recover(c: Case, amount: int): Case {
    var c1 := if c.status != VERIFYING && CanTransition(c.status, VERIFYING) then c.To(VERIFYING) else c;
    var c2 := if CanTransition(c1.status, RECOVERED) then c1.To(RECOVERED) else c1;
    c2.(amountRecovered := amount)
  }

  function MarkSucceeded(attempts: seq<Attempt>, id: Option<nat>): seq<Attempt>
    requires id.Some? ==> id.value < |attempts|
  {
    if id.Some? && CanTransitionAttempt(attempts[id.value].status, SUCCEEDED)
    then attempts[id.value := attempts[id.value].(status := SUCCEEDED)]
    else attempts
  }

  lemma {:induction false} LatestAttemptFound(attempts: seq<Attempt>, caseId: nat, ref: Option<string>)
    ensures var l := LatestAttempt(attempts, caseId, ref);
      && (l.Some? ==>
            && l.value < |attempts| && Matches(attempts[l.value], caseId, ref)
            && forall i | l.value < i < |attempts| :: !Matches(attempts[i], caseId, ref))
      && (l.None? <==> forall i | 0 <= i < |attempts| :: !Matches(attempts[i], caseId, ref))
  {
    if attempts != [] {
      var n := |attempts| - 1;
      LatestAttemptFound(attempts[..n], caseId, ref);
      assert forall i | 0 <= i < n :: attempts[..n][i] == attempts[i];
    }
  }

  /** A settlement credits the newest attempt of the case that carries the settled link's reference; when none does,
      the newest attempt of the case; and none at all only when the case has no attempt. */
  lemma MatchingAttemptFound(attempts: seq<Attempt>, caseId: nat, ref: string)
    ensures var m := MatchingAttempt(attempts, caseId, ref);
      && (m.None? <==> forall i | 0 <= i < |attempts| :: attempts[i].caseId != caseId)
      && (m.Some? ==>
            && m.value < |attempts| && attempts[m.value].caseId == caseId
            && var byRef := ref != "" && exists i :: 0 <= i < |attempts| && Matches(attempts[i], caseId, Some(ref));
               && (byRef ==> attempts[m.value].gatewayRef == Some(ref))
               && forall i | m.value < i < |attempts| ::
                    !Matches(attempts[i], caseId, if byRef then Some(ref) else None))
  {
    LatestAttemptFound(attempts, caseId, Some(ref));
    LatestAttemptFound(attempts, caseId, None);
    if MatchingAttempt(attempts, caseId, ref).None? {
      forall i | 0 <= i < |attempts| ensures attempts[i].caseId != caseId {
        assert !Matches(attempts[i], caseId, None);
      }
    }
  }

  lemma {:induction false} FindOutcomeFound(outcomes: seq<Outcome>, caseId: nat)
    ensures var f := FindOutcome(outcomes, caseId);
      && (f.Some? ==> f.value < |outcomes| && outcomes[f.value].caseId == caseId)
      && (f.None? <==> forall i | 0 <= i < |outcomes| :: outcomes[i].caseId != caseId)
  {
    if outcomes != [] {
      FindOutcomeFound(outcomes[..|outcomes| - 1], caseId);
    }
  }

  /** The financial checks that stop a verification, other than the case being settled already. */
  predicate SettlementValid(c: Case, pay: Payment) {
    pay.status == PayCaptured && pay.currency == c.currency
  }

  /** The database after a settlement, and whether it was verified. */
  function VerifyAndRecover(db: Db, caseId: nat, payId: nat, ref: string): (Db, bool)
    requires caseId < |db.cases| && payId < |db.payments|
  {
    var c, pay := db.cases[caseId], db.payments[payId];
    if c.status == RECOVERED then (db, true)
    else if !SettlementValid(c, pay) then (db, false)
    else
      MatchingAttemptFound(db.attempts, caseId, ref);
      FindOutcomeFound(db.outcomes, caseId);
      var credited := MatchingAttempt(db.attempts, caseId, ref);
      var how := if credited.Some? then Some(db.attempts[credited.value].action) else None;
      var cost := StrategyCost(how);
      var net := if pay.amount - cost > 0 then pay.amount - cost else 0;
      var existing := FindOutcome(db.outcomes, caseId);
      var outcomeId := if existing.Some? then existing.value else |db.outcomes|;
      var outcomes :=
        if existing.None?
        then db.outcomes + [Outcome(caseId, c.merchant, payId, credited, true, pay.amount, cost, net, how)]
        else db.outcomes[outcomeId := db.outcomes[outcomeId].(
               isSuccessful := true, amount := pay.amount, cost := cost, net := net,
               settlingPayment := payId, successfulAttempt := credited)];
      (Record(
         db.(cases := db.cases[caseId := Recover(c, pay.amount)],
             attempts := MarkSucceeded(db.attempts, credited), outcomes := outcomes),
         c.merchant, OutcomeEntity(outcomeId), CaptureVerified, VERIFIER),
       true)
  }

  // ---- Row lookups under unique constraints ----

  function FindOrder(orders: seq<Order>, merchant: nat, externalId: string): Option<nat> {
    if orders == [] then None
    else match FindOrder(orders[..|orders| - 1], merchant, externalId)
      case Some(i) => Some(i)
      case None =>
        var o := orders[|orders| - 1];
        if o.merchant == merchant && o.externalId == externalId then Some(|orders| - 1) else None
  }

  function FindPayment(payments: seq<Payment>, merchant: nat, externalId: string): Option<nat> {
    if payments == [] then None
    else match FindPayment(payments[..|payments| - 1], merchant, externalId)
      case Some(i) => Some(i)
      case None =>
        var o := payments[|payments| - 1];
        if o.merchant == merchant && o.externalId == externalId then Some(|payments| - 1) else None
  }

  function FindEvent(events: seq<RawEvent>, merchant: nat, eventId: string): Option<nat> {
    if events == [] then None
    else match FindEvent(events[..|events| - 1], merchant, eventId)
      case Some(i) => Some(i)
      case None =>
        var e := events[|events| - 1];
        if e.merchant == merchant && e.eventId == eventId then Some(|events| - 1) else None
  }

  /** A customer of the merchant with this email, or with this phone; an absent one is shared with nobody. */
  predicate SharesContact(u: Customer, merchant: nat, email: string, phone: string) {
    u.merchant == merchant && ((email != "" && u.email == email) || (phone != "" && u.phone == phone))
  }

  /** The first customer of the merchant sharing the email or the phone. */
  function FindCustomer(customers: seq<Customer>, merchant: nat, email: string, phone: string): Option<nat> {
    if customers == [] then None
    else match FindCustomer(customers[..|customers| - 1], merchant, email, phone)
      case Some(i) => Some(i)
      case None =>
        var u := customers[|customers| - 1];
        if SharesContact(u, merchant, email, phone) then Some(|customers| - 1) else None
  }

  /** The lookups return the first matching row, and none exactly when no row matches. */
  lemma {:induction false} FindOrderFound(orders: seq<Order>, merchant: nat, externalId: string)
    ensures var f := FindOrder(orders, merchant, externalId);
      && (f.Some? ==>
            && f.value < |orders| && orders[f.value].merchant == merchant && orders[f.value].externalId == externalId
            && forall j | 0 <= j < f.value :: !(orders[j].merchant == merchant && orders[j].externalId == externalId))
      && (f.None? ==>
            forall j | 0 <= j < |orders| :: !(orders[j].merchant == merchant && orders[j].externalId == externalId))
  {
    if orders != [] { FindOrderFound(orders[..|orders| - 1], merchant, externalId); }
  }

  lemma {:induction false} FindPaymentFound(payments: seq<Payment>, merchant: nat, externalId: string)
    ensures var f := FindPayment(payments, merchant, externalId);
      && (f.Some? ==>
            && f.value < |payments| && payments[f.value].merchant == merchant
            && payments[f.value].externalId == externalId
            && forall j | 0 <= j < f.value ::
                 !(payments[j].merchant == merchant && payments[j].externalId == externalId))
      && (f.None? ==>
            forall j | 0 <= j < |payments| ::
              !(payments[j].merchant == merchant && payments[j].externalId == externalId))
  {
    if payments != [] { FindPaymentFound(payments[..|payments| - 1], merchant, externalId); }
  }

  lemma {:induction false} FindCustomerFound(customers: seq<Customer>, merchant: nat, email: string, phone: string)
    ensures var f := FindCustomer(customers, merchant, email, phone);
      && (f.Some? ==>
            && f.value < |customers| && SharesContact(customers[f.value], merchant, email, phone)
            && forall j | 0 <= j < f.value :: !SharesContact(customers[j], merchant, email, phone))
      && (f.None? ==> forall j | 0 <= j < |customers| :: !SharesContact(customers[j], merchant, email, phone))
  {
    if customers != [] { FindCustomerFound(customers[..|customers| - 1], merchant, email, phone); }
  }

  lemma {:induction false} FindEventFound(events: seq<RawEvent>, merchant: nat, eventId: string)
    ensures var f := FindEvent(events, merchant, eventId);
      && (f.Some? ==>
            && f.value < |events| && events[f.value].merchant == merchant && events[f.value].eventId == eventId
            && forall j | 0 <= j < f.value :: !(events[j].merchant == merchant && events[j].eventId == eventId))
      && (f.None? <==>
            forall i | 0 <= i < |events| :: !(events[i].merchant == merchant && events[i].eventId == eventId))
  {
    if events != [] { FindEventFound(events[..|events| - 1], merchant, eventId); }
  }

  lemma {:induction false} FindAttemptFound(attempts: seq<Attempt>, key: string)
    ensures var f := FindAttempt(attempts, key);
      && (f.Some? ==> f.value < |attempts| && attempts[f.value].key == key)
      && (f.None? <==> forall i | 0 <= i < |attempts| :: attempts[i].key != key)
  {
    if attempts != [] { FindAttemptFound(attempts[..|attempts| - 1], key); }
  }

  // ---- Order, payment and customer synchronisation (order_payment_sync_service.py) ----

  function LowerChar(ch: char): char {
    if 'A' <= ch <= 'Z' then ch + 32 as char else ch
  }

  function Lower(s: string): string {
    seq(|s|, i requires 0 <= i < |s| => LowerChar(s[i]))
  }

  function MappedStatus(status: string): PaymentStatus {
    var s := Lower(status);
    if s == "captured" then PayCaptured
    else if s == "authorized" then PayAuthorized
    else if s == "refunded" then PayRefunded
    else PayFailed
  }

  predicate HasContact(p: Payload) {
    p.email != "" || p.phone != ""
  }

  /** The customer row a task goes by: looked up as it writes, or read earlier, without a lock. */
  datatype CustomerRead = ReadsNow | SawNoCustomer | SawCustomer(row: nat, totalFailures: nat, name: string)

  /** The row to write, with the total and the name that were read; none means a new row. */
  function CustomerToWrite(customers: seq<Customer>, merchant: nat, p: Payload, read: CustomerRead)
    : (r: Option<(nat, nat, string)>)
    ensures r.Some? ==> r.value.0 < |customers|
  {
    FindCustomerFound(customers, merchant, p.email, p.phone);
    match read
    case SawNoCustomer => None
    case SawCustomer(row, total, name) => if row < |customers| then Some((row, total, name)) else None
    case ReadsNow =>
      match FindCustomer(customers, merchant, p.email, p.phone)
      case None => None
      case Some(i) => Some((i, customers[i].totalFailures, customers[i].name))
  }

  predicate AddsFailure(p: Payload) {
    p.status == "failed" && HasContact(p)
  }

  /** The total written is the total read plus one, whatever the row holds by then. */
  function SyncCustomer(db: Db, merchant: nat, p: Payload, read: CustomerRead): (Db, Option<nat>) {
    if !HasContact(p) then (db, None)
    else
      var failed := if p.status == "failed" then 1 else 0;
      match CustomerToWrite(db.customers, merchant, p, read)
      case None =>
        (db.(customers := db.customers + [Customer(merchant, p.email, p.phone,
               if p.name != "" then p.name else "Customer", failed, failed)]),
         Some(|db.customers|))
      case Some((i, total, name)) =>
        var u := db.customers[i];
        (db.(customers := db.customers[i := u.(
               totalFailures := if p.status == "failed" then total + 1 else u.totalFailures,
               credits := u.credits + failed,
               name := if p.name != "" && name == "Customer" then p.name else u.name)]),
         Some(i))
  }

  function OrderKey(p: Payload): string {
    if p.externalOrderId != "" then p.externalOrderId else "order_synth_" + p.externalPaymentId
  }

  predicate IsCapturedEvent(p: Payload) {
    p.status in {"captured", "authorized"} && p.eventType in {"payment.captured", "payment.authorized", "order.paid"}
  }

  function SyncOrder(db: Db, merchant: nat, customer: Option<nat>, p: Payload): (Db, nat) {
    FindOrderFound(db.orders, merchant, OrderKey(p));
    match FindOrder(db.orders, merchant, OrderKey(p))
    case None =>
      (db.(orders := db.orders + [Order(merchant, customer, OrderKey(p), p.amount, p.currency,
             Sync.NextOrderStatus(None, IsCapturedEvent(p)))]),
       |db.orders|)
    case Some(i) =>
      var o := db.orders[i];
      if o.status == OrderPaid then (db, i)
      else (db.(orders := db.orders[i := o.(
                  status := Sync.NextOrderStatus(Some(o.status), IsCapturedEvent(p)),
                  customer := if o.customer.None? then customer else o.customer)]), i)
  }

  function SyncPayment(db: Db, merchant: nat, order: nat, p: Payload): (Db, nat) {
    FindPaymentFound(db.payments, merchant, p.externalPaymentId);
    match FindPayment(db.payments, merchant, p.externalPaymentId)
    case None =>
      (db.(payments := db.payments + [Payment(merchant, order, p.externalPaymentId, p.amount, p.currency,
             MappedStatus(p.status))]),
       |db.payments|)
    case Some(i) =>
      var pay := db.payments[i];
      (db.(payments := db.payments[i := pay.(
         status := Sync.NextPaymentStatus(Some(pay.status), MappedStatus(p.status)))]), i)
  }

  // ---- Case creation (case_creation_service.py) ----

  predicate ActiveFor(c: Case, merchant: nat, order: nat) {
    c.merchant == merchant && c.order == order && !Terminal(c.status)
  }

  /** The first case of the list that is active for an order. */
  function FirstActive(cases: seq<Case>, merchant: nat, order: nat): Option<nat> {
    if cases == [] then None
    else match FirstActive(cases[..|cases| - 1], merchant, order)
      case Some(i) => Some(i)
      case None => if ActiveFor(cases[|cases| - 1], merchant, order) then Some(|cases| - 1) else None
  }

  /** Two active cases for one order: scalar_one_or_none would raise. */
  predicate AmbiguousActive(cases: seq<Case>, merchant: nat, order: nat) {
    exists i, j | 0 <= i < j < |cases| :: ActiveFor(cases[i], merchant, order) && ActiveFor(cases[j], merchant, order)
  }

  lemma {:induction false} FirstActiveFound(cases: seq<Case>, merchant: nat, order: nat)
    ensures var f := FirstActive(cases, merchant, order);
      && (f.Some? ==> f.value < |cases| && ActiveFor(cases[f.value], merchant, order))
      && (f.None? <==> forall i | 0 <= i < |cases| :: !ActiveFor(cases[i], merchant, order))
  {
    if cases != [] { FirstActiveFound(cases[..|cases| - 1], merchant, order); }
  }

  const RECOVERY_WINDOW: int := 72 * 3600 * MICROS_PER_SECOND

  function NewCase(merchant: nat, order: nat, payId: nat, pay: Payment, p: Payload, now: int): Case {
    Case(merchant, order, payId, pay.amount, 0, pay.currency, DETECTED, [DETECTED],
         Some(p.category), p.isTransient, p.diagnosis, None, None, None, 0, 2, now + RECOVERY_WINDOW, None, None, false)
    .To(ENRICHING).To(DIAGNOSING)
  }

  /** `staleMiss`: the lookup ran earlier and saw no active case; the partial unique index decides the insert. */
  function CreateOrUpdateCase(
    db: Db, merchant: nat, order: nat, payId: nat, p: Payload, now: int, staleMiss: bool): Txn<nat>
    requires payId < |db.payments|
  {
    FirstActiveFound(db.cases, merchant, order);
    var active := FirstActive(db.cases, merchant, order);
    if !staleMiss && AmbiguousActive(db.cases, merchant, order) then Abort
    else if active.Some? && staleMiss then Abort
    else if active.Some? then
      var id := active.value;
      Commit(
        Record(db.(cases := db.cases[id := db.cases[id].(
                      initialPayment := payId, category := Some(p.category), isTransient := p.isTransient,
                      diagnosis := p.diagnosis)]),
          merchant, CaseEntity(id), FailureAppended, CASE_SERVICE),
        id)
    else
      var id := |db.cases|;
      Commit(
        Record(db.(cases := db.cases + [NewCase(merchant, order, payId, db.payments[payId], p, now)]),
          merchant, CaseEntity(id), CaseCreated, CASE_SERVICE),
        id)
  }

  // ---- Verification entry points ----

  predicate Verifiable(c: Case, order: nat) {
    c.order == order && c.status in {APPROVED, EXECUTING, WAITING_EXTERNAL, VERIFYING, ESCALATED}
  }

  function FirstVerifiable(cases: seq<Case>, order: nat): Option<nat> {
    if cases == [] then None
    else match FirstVerifiable(cases[..|cases| - 1], order)
      case Some(i) => Some(i)
      case None => if Verifiable(cases[|cases| - 1], order) then Some(|cases| - 1) else None
  }

  predicate AmbiguousVerifiable(cases: seq<Case>, order: nat) {
    exists i, j | 0 <= i < j < |cases| :: Verifiable(cases[i], order) && Verifiable(cases[j], order)
  }

  lemma {:induction false} FirstVerifiableFound(cases: seq<Case>, order: nat)
    ensures var f := FirstVerifiable(cases, order);
      && (f.Some? ==> f.value < |cases| && Verifiable(cases[f.value], order))
      && (f.None? <==> forall i | 0 <= i < |cases| :: !Verifiable(cases[i], order))
  {
    if cases != [] { FirstVerifiableFound(cases[..|cases| - 1], order); }
  }

  predicate IsCaptureEvent(p: Payload) {
    p.eventType in {"payment.captured", "payment_link.paid", "order.paid"} || p.status == "captured"
  }

  /** The settling payment row, found and forced to CAPTURED, or created so. */
  function SettlingPayment(db: Db, merchant: nat, order: nat, p: Payload, freshId: string): (Db, nat) {
    FindPaymentFound(db.payments, merchant, p.externalPaymentId);
    match FindPayment(db.payments, merchant, p.externalPaymentId)
    case None =>
      var externalId := if p.externalPaymentId != "" then p.externalPaymentId else freshId;
      (db.(payments := db.payments + [Payment(merchant, order, externalId, p.amount, p.currency, PayCaptured)]),
       |db.payments|)
    case Some(i) =>
      (db.(payments := db.payments[i := db.payments[i].(status := PayCaptured)]), i)
  }

  lemma SettlingPaymentValid(db: Db, merchant: nat, order: nat, p: Payload, freshId: string)
    ensures var (db', i) := SettlingPayment(db, merchant, order, p, freshId);
      i < |db'.payments| && db'.payments[i].status == PayCaptured && db'.cases == db.cases
  {
    FindPaymentFound(db.payments, merchant, p.externalPaymentId);
  }

  /** None: nothing to verify. */
  function VerifyFromWebhook(db: Db, merchant: nat, p: Payload, freshId: string): Txn<Option<bool>> {
    FindOrderFound(db.orders, merchant, p.externalOrderId);
    var order := FindOrder(db.orders, merchant, p.externalOrderId);
    if !IsCaptureEvent(p) || order.None? then Commit(db, None)
    else if AmbiguousVerifiable(db.cases, order.value) then Abort
    else
      FirstVerifiableFound(db.cases, order.value);
      SettlingPaymentValid(db, merchant, order.value, p, freshId);
      match FirstVerifiable(db.cases, order.value)
      case None => Commit(db, None)
      case Some(caseId) =>
        var (paid, payId) := SettlingPayment(db, merchant, order.value, p, freshId);
        var (db', verified) := VerifyAndRecover(paid, caseId, payId, p.linkId);
        Commit(db', Some(verified))
  }

  /** The newest payment-link attempt of a case that carries a gateway reference. */
  function PollLink(attempts: seq<Attempt>, caseId: nat): Option<string> {
    if attempts == [] then None
    else
      var a := attempts[|attempts| - 1];
      if a.caseId == caseId && a.action == PAYMENT_LINK && a.gatewayRef.Some? && a.gatewayRef.value != ""
      then a.gatewayRef
      else PollLink(attempts[..|attempts| - 1], caseId)
  }

  function PollAndReconcile(db: Db, caseId: nat, merchantExists: bool, linkPaid: bool, freshId: string): Txn<bool> {
    if caseId >= |db.cases| || !merchantExists then Abort
    else
      var c := db.cases[caseId];
      var link := PollLink(db.attempts, caseId);
      if link.None? || !linkPaid || c.order >= |db.orders| then Commit(db, false)
      else if FindPayment(db.payments, c.merchant, freshId).Some? then Abort
      else
        var paid := db.(
          orders := db.orders[c.order := db.orders[c.order].(status := OrderPaid)],
          payments := db.payments + [Payment(c.merchant, c.order, freshId, c.amountAtRisk, c.currency, PayCaptured)]);
        var (db', verified) := VerifyAndRecover(paid, caseId, |db.payments|, link.value);
        Commit(db', verified)
  }

  // ---- Webhook ingestion and the worker (webhook_ingestion_service.py, ingestion.py) ----

  datatype Ingested = Ingested(isDuplicate: bool, rawId: nat)

  /** One row per (merchant, event id); a second delivery finds the first. */
  function IngestWebhook(db: Db, merchant: nat, eventId: string, payload: Option<Payload>): (Db, Ingested) {
    match FindEvent(db.events, merchant, eventId)
    case Some(i) => (db, Ingested(true, i))
    case None => (db.(events := db.events + [RawEvent(merchant, eventId, payload, false)]),
      Ingested(false, |db.events|))
  }

  datatype Processed = NotFound | AlreadyProcessed | ParseError | Success

  predicate IsFailureEvent(p: Payload) {
    p.eventType == "payment.failed" || p.status == "failed"
  }

  /** The worker verifies a case against the event. */
  predicate TakenUp(p: Payload) {
    IsCaptureEvent(p) && !IsFailureEvent(p)
  }

  function MarkProcessed(db: Db, rawId: nat): Db
    requires rawId < |db.events|
  {
    db.(events := db.events[rawId := db.events[rawId].(processed := true)])
  }

  /** What an event's transaction read earlier: whether it did not find its order, its payment or an active case, and
      the customer row it goes by. */
  datatype Missed = Missed(order: bool, payment: bool, active: bool, customer: CustomerRead)

  const NOTHING_MISSED := Missed(false, false, false, ReadsNow)

  /** An order or payment insert runs into its unique constraint: the row was not there, and now it is. */
  predicate InsertConflict(db: Db, merchant: nat, p: Payload, missed: Missed) {
    || (missed.order && FindOrder(db.orders, merchant, OrderKey(p)).Some?)
    || (missed.payment && FindPayment(db.payments, merchant, p.externalPaymentId).Some?)
  }

  /** The three synchronisation steps, with the order and payment they end on. */
  function SyncAll(db: Db, merchant: nat, p: Payload, read: CustomerRead): (Db, nat, nat) {
    var (db1, customer) := SyncCustomer(db, merchant, p, read);
    var (db2, order) := SyncOrder(db1, merchant, customer, p);
    var (db3, pay) := SyncPayment(db2, merchant, order, p);
    (db3, order, pay)
  }

  lemma SyncAllValid(db: Db, merchant: nat, p: Payload, read: CustomerRead)
    ensures var (db', order, pay) := SyncAll(db, merchant, p, read);
      && order < |db'.orders| && pay < |db'.payments| && db'.orders[order].merchant == merchant
      && db'.events == db.events && db'.cases == db.cases && db'.attempts == db.attempts
      && db'.outcomes == db.outcomes && db'.ledger == db.ledger && db'.decisions == db.decisions
  {
    var (db1, customer) := SyncCustomer(db, merchant, p, read);
    FindOrderFound(db1.orders, merchant, OrderKey(p));
    var (db2, order) := SyncOrder(db1, merchant, customer, p);
    FindPaymentFound(db2.payments, merchant, p.externalPaymentId);
  }

  /** Customers are synchronised without touching orders, and orders without touching payments. */
  lemma SyncAllTouches(db: Db, merchant: nat, p: Payload, read: CustomerRead)
    ensures SyncCustomer(db, merchant, p, read).0.orders == db.orders
    ensures var (db1, customer) := SyncCustomer(db, merchant, p, read);
      SyncOrder(db1, merchant, customer, p).0.payments == db.payments
  {
    var (db1, customer) := SyncCustomer(db, merchant, p, read);
    FindCustomerFound(db.customers, merchant, p.email, p.phone);
    FindOrderFound(db1.orders, merchant, OrderKey(p));
  }

  /** Failure opens or updates a case; capture verifies one; any other event only synchronises. */
  function HandleEvent(db: Db, merchant: nat, p: Payload, now: int, missed: Missed, freshId: string): Txn<()> {
    SyncAllValid(db, merchant, p, missed.customer);
    var (synced, order, pay) := SyncAll(db, merchant, p, missed.customer);
    if IsFailureEvent(p) then
      match CreateOrUpdateCase(synced, merchant, order, pay, p, now, missed.active)
      case Abort => Abort
      case Commit(db', _) => Commit(db', ())
    else if IsCaptureEvent(p) then
      match VerifyFromWebhook(synced, merchant, p, freshId)
      case Abort => Abort
      case Commit(db', _) => Commit(db', ())
    else Commit(synced, ())
  }

  lemma VerifyFromWebhookKeepsEvents(db: Db, merchant: nat, p: Payload, freshId: string)
    ensures var r := VerifyFromWebhook(db, merchant, p, freshId); r.Commit? ==> r.db.events == db.events
  {
    FindOrderFound(db.orders, merchant, p.externalOrderId);
    var order := FindOrder(db.orders, merchant, p.externalOrderId);
    if order.Some? {
      FirstVerifiableFound(db.cases, order.value);
      SettlingPaymentValid(db, merchant, order.value, p, freshId);
    }
  }

  lemma CreateKeepsEvents(db: Db, merchant: nat, order: nat, payId: nat, p: Payload, now: int, staleMiss: bool)
    requires payId < |db.payments|
    ensures var r := CreateOrUpdateCase(db, merchant, order, payId, p, now, staleMiss);
      r.Commit? ==> r.db.events == db.events
  {
  }

  lemma HandleEventKeepsEvents(db: Db, merchant: nat, p: Payload, now: int, missed: Missed, freshId: string)
    ensures HandleEvent(db, merchant, p, now, missed, freshId).Commit? ==>
      HandleEvent(db, merchant, p, now, missed, freshId).db.events == db.events
  {
    SyncAllValid(db, merchant, p, missed.customer);
    var (synced, order, pay) := SyncAll(db, merchant, p, missed.customer);
    if IsFailureEvent(p) {
      CreateKeepsEvents(synced, merchant, order, pay, p, now, missed.active);
    } else {
      VerifyFromWebhookKeepsEvents(synced, merchant, p, freshId);
    }
  }

  function ProcessRawWebhook(db: Db, rawId: nat, now: int, missed: Missed, freshId: string): Txn<Processed> {
    if rawId >= |db.events| then Commit(db, NotFound)
    else if db.events[rawId].processed then Commit(db, AlreadyProcessed)
    else
      var e := db.events[rawId];
      if e.payload.None? then Commit(MarkProcessed(db, rawId), ParseError)
      else if InsertConflict(db, e.merchant, e.payload.value, missed) then Abort
      else
        HandleEventKeepsEvents(db, e.merchant, e.payload.value, now, missed, freshId);
        match HandleEvent(db, e.merchant, e.payload.value, now, missed, freshId)
        case Abort => Abort
        case Commit(db', _) => Commit(MarkProcessed(db', rawId), Success)
  }

  function Reassess(c: Case, now: int): Case {
    if c.status == WAITING_EXTERNAL && c.scheduledAt.Some? && c.scheduledAt.value <= now
    then c.To(DETECTED).(scheduledAt := None)
    else c
  }

  function ReassessScheduled(db: Db, now: int): Db {
    db.(cases := seq(|db.cases|, i requires 0 <= i < |db.cases| => Reassess(db.cases[i], now)))
  }
}
