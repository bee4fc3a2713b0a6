/** Enumerations and small value types shared by every module (backend/packages/domain/enums.py). */
module Domain {

  datatype Option<+T> = None | Some(value: T)

  datatype CaseStatus =
    | DETECTED | ENRICHING | DIAGNOSING | STRATEGY_GENERATED | POLICY_CHECK_PENDING
    | APPROVED | REJECTED | ESCALATED | EXECUTING | WAITING_EXTERNAL | VERIFYING
    | RECOVERED | UNRECOVERABLE | EXPIRED | STOPPED

  datatype AttemptStatus = DRAFT | DISPATCHED | ACKNOWLEDGED | SUCCEEDED | FAILED | TIMED_OUT

  datatype ActionType = PAYMENT_LINK | CUSTOMER_REMINDER | WAIT_AND_REASSESS | HUMAN_ESCALATION | DO_NOTHING

  datatype Verdict = VerdictApproved | VerdictRejected | VerdictEscalated | VerdictModified

  datatype Category =
    | USER_AUTHENTICATION_DROPOFF | INSUFFICIENT_FUNDS | TECHNICAL_GATEWAY_TIMEOUT
    | BANK_SYSTEM_OUTAGE | PERMANENT_INSTRUMENT_DECLINE | FRAUD_RISK_BLOCK | UNKNOWN

  datatype OrderStatus = OrderCreated | OrderAttempted | OrderPaid | OrderExpired | OrderCancelled

  datatype PaymentStatus = PayCreated | PayAuthorized | PayCaptured | PayFailed | PayRefunded

  datatype Rule =
    | CASE_ALREADY_TERMINAL | DEADLINE_EXPIRED | MAX_ATTEMPTS_EXCEEDED | COOLDOWN_ACTIVE | FRAUD_RISK_GUARD
    | NO_ACTIVE_PAYMENT_LINK | HIGH_VALUE_THRESHOLD_EXCEEDED | ACTION_DISALLOWED_BY_MERCHANT
    | NO_INTERVENTION_AUTHORIZED | POLICY_APPROVAL_CLEARED

  /** The four statuses every service treats as final. */
  predicate Terminal(s: CaseStatus) {
    s in {RECOVERED, UNRECOVERABLE, EXPIRED, STOPPED}
  }
}
