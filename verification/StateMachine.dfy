/** Transition tables (backend/packages/domain/state_machine.py) and walks through them. */
module StateMachine {
  import opened Domain

  function Allowed(s: CaseStatus): set<CaseStatus> {
    match s
    case DETECTED => {ENRICHING, UNRECOVERABLE, STOPPED}
    case ENRICHING => {DIAGNOSING, UNRECOVERABLE, STOPPED}
    case DIAGNOSING => {STRATEGY_GENERATED, UNRECOVERABLE, STOPPED}
    case STRATEGY_GENERATED => {POLICY_CHECK_PENDING, STOPPED}
    case POLICY_CHECK_PENDING => {APPROVED, REJECTED, ESCALATED}
    case APPROVED => {EXECUTING, WAITING_EXTERNAL, STOPPED}
    case REJECTED => {STOPPED, UNRECOVERABLE}
    case ESCALATED => {APPROVED, STOPPED, UNRECOVERABLE}
    case EXECUTING => {WAITING_EXTERNAL, VERIFYING, UNRECOVERABLE, STOPPED}
    case WAITING_EXTERNAL => {VERIFYING, DIAGNOSING, EXPIRED, STOPPED}
    case VERIFYING => {RECOVERED, DIAGNOSING, UNRECOVERABLE, STOPPED}
    case RECOVERED => {}
    case UNRECOVERABLE => {}
    case EXPIRED => {}
    case STOPPED => {}
  }

  predicate CanTransition(current: CaseStatus, target: CaseStatus) {
    target in Allowed(current)
  }

  function AttemptAllowed(s: AttemptStatus): set<AttemptStatus> {
    match s
    case DRAFT => {DISPATCHED, FAILED}
    case DISPATCHED => {ACKNOWLEDGED, SUCCEEDED, FAILED, TIMED_OUT}
    case ACKNOWLEDGED => {SUCCEEDED, FAILED, TIMED_OUT}
    case SUCCEEDED => {}
    case FAILED => {}
    case TIMED_OUT => {}
  }

  predicate CanTransitionAttempt(current: AttemptStatus, target: AttemptStatus) {
    target in AttemptAllowed(current)
  }

  /** What the services do: the table, plus the unvalidated assignment in the reassessment task. */
  predicate ServiceEdge(a: CaseStatus, b: CaseStatus) {
    CanTransition(a, b) || (a == WAITING_EXTERNAL && b == DETECTED)
  }

  /** A case's status history: it opens in DETECTED and follows service edges. */
  predicate Walk(t: seq<CaseStatus>) {
    && |t| > 0 && t[0] == DETECTED
    && forall i | 0 < i < |t| :: ServiceEdge(t[i - 1], t[i])
  }

  function Rank(s: CaseStatus): nat {
    match s
    case DETECTED => 0
    case ENRICHING => 1
    case DIAGNOSING => 2
    case STRATEGY_GENERATED => 3
    case POLICY_CHECK_PENDING => 4
    case REJECTED => 5
    case ESCALATED => 5
    case APPROVED => 6
    case EXECUTING => 7
    case WAITING_EXTERNAL => 8
    case VERIFYING => 9
    case _ => 10
  }

  /** The only edges that go back. */
  predicate LoopEdge(a: CaseStatus, b: CaseStatus) {
    (a in {WAITING_EXTERNAL, VERIFYING} && b == DIAGNOSING) || (a == WAITING_EXTERNAL && b == DETECTED)
  }

  function Loops(t: seq<CaseStatus>): nat {
    if |t| < 2 then 0
    else Loops(t[..|t| - 1]) + if LoopEdge(t[|t| - 2], t[|t| - 1]) then 1 else 0
  }

  lemma WalkPrefix(t: seq<CaseStatus>)
    requires Walk(t) && |t| > 1
    ensures Walk(t[..|t| - 1])
  {
  }

  /** Every edge but the three loop edges climbs in rank. */
  lemma RankClimbs(a: CaseStatus, b: CaseStatus)
    requires ServiceEdge(a, b)
    ensures LoopEdge(a, b) <==> Rank(b) <= Rank(a)
  {
  }

  /** How a case can be ended: stopped at any time but while the policy is asked, expired only while it waits, given up
      unless it is approved, waits or is on its way to the policy, recovered only from verification. */
  lemma EndsExactly(s: CaseStatus)
    ensures CanTransition(s, STOPPED) <==> !Terminal(s) && s != POLICY_CHECK_PENDING
    ensures CanTransition(s, EXPIRED) <==> s == WAITING_EXTERNAL
    ensures CanTransition(s, UNRECOVERABLE) <==>
      !Terminal(s) && s !in {STRATEGY_GENERATED, POLICY_CHECK_PENDING, APPROVED, WAITING_EXTERNAL}
    ensures CanTransition(s, RECOVERED) <==> s == VERIFYING
  {
  }

  /** A history is no longer than its loops allow. */
  lemma {:induction false} WalkLengthBounded(t: seq<CaseStatus>)
    requires Walk(t)
    ensures |t| <= 10 * Loops(t) + Rank(t[|t| - 1]) + 1
  {
    if |t| > 1 {
      WalkPrefix(t);
      WalkLengthBounded(t[..|t| - 1]);
      RankClimbs(t[|t| - 2], t[|t| - 1]);
    }
  }

  /** Terminal statuses are absorbing, and RECOVERED is only ever entered from VERIFYING. */
  lemma {:induction false} TerminalOnlyLast(t: seq<CaseStatus>)
    requires Walk(t)
    ensures forall i | 0 <= i < |t| - 1 :: !Terminal(t[i])
    ensures forall i | 0 <= i < |t| && t[i] == RECOVERED :: i > 0 && t[i - 1] == VERIFYING
  {
    forall i | 0 <= i < |t| - 1 ensures !Terminal(t[i]) {
      assert ServiceEdge(t[i], t[i + 1]);
    }
  }

  /** Statuses that cannot be reached without an approval. */
  predicate PastApproval(s: CaseStatus) {
    s in {EXECUTING, WAITING_EXTERNAL, VERIFYING, RECOVERED, EXPIRED}
  }

  lemma {:induction false} ApprovedBeforeExecution(t: seq<CaseStatus>)
    requires Walk(t) && PastApproval(t[|t| - 1])
    ensures APPROVED in t
  {
    assert |t| > 1 && ServiceEdge(t[|t| - 2], t[|t| - 1]);
    if t[|t| - 2] != APPROVED {
      WalkPrefix(t);
      ApprovedBeforeExecution(t[..|t| - 1]);
    }
  }

  lemma ExtendWalk(t: seq<CaseStatus>, s: CaseStatus)
    requires Walk(t) && ServiceEdge(t[|t| - 1], s)
    ensures Walk(t + [s])
    ensures Loops(t + [s]) == Loops(t) + if LoopEdge(t[|t| - 1], s) then 1 else 0
  {
    assert (t + [s])[..|t|] == t;
  }
}
