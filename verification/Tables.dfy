/**
 The database rows (backend/packages/persistence/models). A table is a sequence and a row's primary key is its
 index, so insertion appends and creation order is index order. Money is in minor units, probabilities are in
 ten-thousandths (the source rounds to four places), and times are in microseconds.
 */
module Tables {
  import opened Domain

  const MICROS_PER_SECOND: int := 1000000

  /** `trail` is a history variable: every status the row has been assigned, oldest first. */
  datatype Case = Case(
    merchant: nat, order: nat, initialPayment: nat,
    amountAtRisk: int, amountRecovered: int, currency: string,
    status: CaseStatus, trail: seq<CaseStatus>,
    category: Option<Category>, isTransient: bool, diagnosis: Option<string>, confidence: Option<int>,
    probability: Option<int>, expectedValue: Option<int>,
    attemptCount: nat, maxAttempts: int,
    deadline: int, scheduledAt: Option<int>, lastAttemptAt: Option<int>,
    linkInMetadata: bool)
  {
    function To(s: CaseStatus): Case {
      this.(status := s, trail := trail + [s])
    }
  }

  datatype Attempt = Attempt(
    caseId: nat, merchant: nat, action: ActionType, key: string,
    status: AttemptStatus, gatewayRef: Option<string>)

  datatype Outcome = Outcome(
    caseId: nat, merchant: nat, settlingPayment: nat, successfulAttempt: Option<nat>,
    isSuccessful: bool, amount: int, cost: int, net: int, recoveryMethod: Option<ActionType>)

  datatype Payment = Payment(
    merchant: nat, order: nat, externalId: string, amount: int, currency: string, status: PaymentStatus)

  datatype Order = Order(
    merchant: nat, customer: Option<nat>, externalId: string, amount: int, currency: string, status: OrderStatus)

  /** Contact fields are normalised; the empty string means absent. `credits` is a history variable: how many failed
      events' tasks have written this row. */
  datatype Customer = Customer(
    merchant: nat, email: string, phone: string, name: string, totalFailures: nat, credits: nat)

  /** What parse_razorpay_webhook extracts; the taxonomy's category and transient flag are inputs here, and
      `diagnosis` is the error description, or else the error reason. */
  datatype Payload = Payload(
    eventType: string, externalPaymentId: string, externalOrderId: string, amount: int, currency: string,
    status: string, email: string, phone: string, name: string,
    category: Category, isTransient: bool, diagnosis: Option<string>, linkId: string)

  /** A stored webhook; a payload of None is one the parser rejects. */
  datatype RawEvent = RawEvent(merchant: nat, eventId: string, payload: Option<Payload>, processed: bool)

  datatype Entity = CaseEntity(id: nat) | AttemptEntity(id: nat) | OutcomeEntity(id: nat) | DecisionEntity(id: nat)

  datatype AuditAction =
    | CaseCreated | FailureAppended | DecisionEvaluated | AiDecisionEvaluated
    | AttemptCreated | GatewayAccepted | ExecutionFailed | CaptureVerified

  datatype Actor = SystemActor(id: string) | AiAgent(id: string)

  /** One record_event call. */
  datatype Audit = Audit(merchant: nat, entity: Entity, action: AuditAction, actor: Actor)

  datatype ErvResult = ErvResult(action: ActionType, probability: int, gross: int, cost: int, penalty: int, net: int)

  /** A stored explanation: the top result's own, the same behind a note on why the AI was not followed, or the AI's. */
  datatype Rationale = OfTop(top: ErvResult) | OfFallback(why: string, top: ErvResult) | OfAi(text: string)

  /** A strategy recommendation, the AI's or one made up in its place. */
  datatype Recommendation = Recommendation(
    action: ActionType, confidence: int, diagnosis: string, rationale: Rationale,
    alternative: Option<ActionType>, latencyMinutes: int)

  datatype Metadata = Metadata(
    provider: string, model: string, latencyMs: int, isFallback: bool, fallbackReason: Option<string>)

  /** What only the AI service keeps of a decision. */
  datatype AiTrace = AiTrace(
    diagnosis: string, alternative: Option<ActionType>, latencyMinutes: int, deterministic: ActionType,
    metadata: Metadata)

  /** One row of recovery_decisions. */
  datatype DecisionRow = DecisionRow(
    caseId: nat, merchant: nat, attemptNumber: nat, candidates: seq<ActionType>,
    proposed: ActionType, confidence: int, reasoning: Rationale, ervTable: seq<ErvResult>, ai: Option<AiTrace>,
    verdict: Verdict, authorized: ActionType, rule: Rule, delaySeconds: Option<int>)

  datatype Db = Db(
    cases: seq<Case>, attempts: seq<Attempt>, outcomes: seq<Outcome>, payments: seq<Payment>,
    orders: seq<Order>, customers: seq<Customer>, events: seq<RawEvent>,
    decisions: seq<DecisionRow>, ledger: seq<Audit>)

  const EMPTY := Db([], [], [], [], [], [], [], [], [])

  /** A transaction either commits a new database and a value, or raises and leaves everything as it was. */
  datatype Txn<+R> = Commit(db: Db, value: R) | Abort
}
