/** What one service call can do to one case, and to the tables as a whole, between two states of a run. */
module Lifecycle {
  import opened Domain
  import opened StateMachine
  import opened Tables
  import opened Services

  /** The trail is a walk that ends in the current status. */
  predicate Tracked(c: Case) {
    Walk(c.trail) && c.status == c.trail[|c.trail| - 1]
  }

  /** Each way back costs an attempt, except the one way into DETECTED, which has no way out but UNRECOVERABLE. */
  predicate WithinBudget(c: Case) {
    Loops(c.trail) <= c.attemptCount + if c.status in {DETECTED, UNRECOVERABLE} then 1 else 0
  }

  predicate SameIdentity(c: Case, c': Case) {
    && c'.merchant == c.merchant && c'.order == c.order && c'.currency == c.currency
    && c'.amountAtRisk == c.amountAtRisk && c'.maxAttempts == c.maxAttempts && c'.deadline == c.deadline
  }

  /** The relation every service keeps between a case and its successor; it is reflexive and transitive. */
  predicate CaseEvolves(c: Case, c': Case) {
    && SameIdentity(c, c')
    && c.attemptCount <= c'.attemptCount && c.trail <= c'.trail
    && (Tracked(c) ==> Tracked(c'))
    && (Tracked(c) && WithinBudget(c) ==> WithinBudget(c'))
    && (Terminal(c.status) ==> c'.status == c.status)
    && (c.status == DETECTED ==> c'.status in {DETECTED, UNRECOVERABLE})
  }

  /** A step that is not a settlement: no money moves and RECOVERED is not entered. */
  predicate Unsettled(c: Case, c': Case) {
    c'.amountRecovered == c.amountRecovered && (c'.status == RECOVERED ==> c.status == RECOVERED)
  }

  lemma CaseEvolvesTransitive(a: Case, b: Case, c: Case)
    requires CaseEvolves(a, b) && CaseEvolves(b, c)
    ensures CaseEvolves(a, c)
  {
  }

  lemma CaseEvolvesReflexive(c: Case)
    ensures CaseEvolves(c, c)
  {
  }

  lemma MoveTracked(c: Case, s: CaseStatus)
    requires Tracked(c) && ServiceEdge(c.status, s)
    ensures Tracked(c.To(s))
    ensures Loops(c.To(s).trail) == Loops(c.trail) + if LoopEdge(c.status, s) then 1 else 0
  {
    ExtendWalk(c.trail, s);
  }

  /** One forward status assignment. */
  lemma ForwardMoveEvolves(c: Case, s: CaseStatus)
    requires CanTransition(c.status, s) && !LoopEdge(c.status, s)
    requires c.status == DETECTED ==> s == UNRECOVERABLE
    ensures CaseEvolves(c, c.To(s))
  {
    if Tracked(c) { MoveTracked(c, s); }
  }

  /** One status assignment, in either direction, paid for with an attempt. */
  lemma PaidMoveEvolves(c: Case, s: CaseStatus)
    requires CanTransition(c.status, s)
    requires c.status == DETECTED ==> s == UNRECOVERABLE
    ensures CaseEvolves(c, c.To(s).(attemptCount := c.attemptCount + 1))
  {
    if Tracked(c) { MoveTracked(c, s); }
  }

  /** Everything but identity, status, trail and count may change freely. */
  lemma FreeFieldsEvolve(c: Case, c': Case)
    requires SameIdentity(c, c') && c'.status == c.status && c'.trail == c.trail && c'.attemptCount >= c.attemptCount
    ensures CaseEvolves(c, c')
  {
  }

  lemma PolicyCheckEvolves(c: Case)
    ensures CaseEvolves(c, AdvanceToPolicyCheck(c)) && Unsettled(c, AdvanceToPolicyCheck(c))
  {
    CaseEvolvesReflexive(c);
    var c1 := if c.status == DIAGNOSING then c.To(STRATEGY_GENERATED) else c;
    if c.status == DIAGNOSING { ForwardMoveEvolves(c, STRATEGY_GENERATED); }
    if c1.status == STRATEGY_GENERATED {
      ForwardMoveEvolves(c1, POLICY_CHECK_PENDING);
      CaseEvolvesTransitive(c, c1, c1.To(POLICY_CHECK_PENDING));
    }
  }

  /** The walk to the policy check and on to the verdict's status; only estimates and AI notes change besides. */
  predicate DecidedCase(c: Case, c': Case, target: CaseStatus) {
    c' == AdvanceToPolicyCheck(c).To(target).(
      probability := c'.probability, expectedValue := c'.expectedValue,
      confidence := c'.confidence, diagnosis := c'.diagnosis)
  }

  lemma DecisionEvolves(c: Case, c': Case, target: CaseStatus)
    requires target in {APPROVED, REJECTED, ESCALATED} && CanTransition(AdvanceToPolicyCheck(c).status, target)
    requires DecidedCase(c, c', target)
    ensures CaseEvolves(c, c') && Unsettled(c, c') && c'.attemptCount == c.attemptCount
  {
    var pending := AdvanceToPolicyCheck(c);
    PolicyCheckEvolves(c);
    ForwardMoveEvolves(pending, target);
    FreeFieldsEvolve(pending.To(target), c');
    CaseEvolvesTransitive(pending, pending.To(target), c');
    CaseEvolvesTransitive(c, pending, c');
  }

  lemma ExecutionEvolves(c: Case, cmd: Command, r: ExecResult, now: int, dispatchedAt: int)
    requires !Terminal(c.status) && c.status != ESCALATED
    requires r.target in {UNRECOVERABLE, DIAGNOSING, WAITING_EXTERNAL, ESCALATED}
    ensures var c' := AfterExecution(c, cmd, r, now, dispatchedAt);
      CaseEvolves(c, c') && Unsettled(c, c') && c'.attemptCount == c.attemptCount + 1
  {
    var c' := AfterExecution(c, cmd, r, now, dispatchedAt);
    var executing := if c.status == APPROVED then c.To(EXECUTING) else c;
    CaseEvolvesReflexive(c);
    if c.status == APPROVED { ForwardMoveEvolves(c, EXECUTING); }
    if CanTransition(executing.status, r.target) {
      var paid := executing.To(r.target).(attemptCount := executing.attemptCount + 1);
      PaidMoveEvolves(executing, r.target);
      FreeFieldsEvolve(paid, c');
      CaseEvolvesTransitive(executing, paid, c');
    } else {
      FreeFieldsEvolve(executing, c');
    }
    CaseEvolvesTransitive(c, executing, c');
  }

  lemma OptionalForwardMove(c: Case, s: CaseStatus, moves: bool)
    requires moves ==> CanTransition(c.status, s) && !LoopEdge(c.status, s)
    requires moves && c.status == DETECTED ==> s == UNRECOVERABLE
    ensures CaseEvolves(c, if moves then c.To(s) else c)
  {
    if moves { ForwardMoveEvolves(c, s); } else { CaseEvolvesReflexive(c); }
  }

  /** A settlement enters RECOVERED exactly from EXECUTING, WAITING_EXTERNAL and VERIFYING; else the status stays. */
  lemma RecoverStatus(c: Case, amount: int)
    ensures var c' := Recover(c, amount);
      && c'.attemptCount == c.attemptCount && c'.amountRecovered == amount && SameIdentity(c, c')
      && c'.status == if c.status in {EXECUTING, WAITING_EXTERNAL, VERIFYING} then RECOVERED else c.status
  {
  }

  lemma RecoverEvolves(c: Case, amount: int)
    ensures CaseEvolves(c, Recover(c, amount))
  {
    var c1 := if c.status != VERIFYING && CanTransition(c.status, VERIFYING) then c.To(VERIFYING) else c;
    var c2 := if CanTransition(c1.status, RECOVERED) then c1.To(RECOVERED) else c1;
    OptionalForwardMove(c, VERIFYING, c.status != VERIFYING && CanTransition(c.status, VERIFYING));
    OptionalForwardMove(c1, RECOVERED, CanTransition(c1.status, RECOVERED));
    CaseEvolvesTransitive(c, c1, c2);
    FreeFieldsEvolve(c2, c2.(amountRecovered := amount));
    CaseEvolvesTransitive(c, c2, c2.(amountRecovered := amount));
  }

  /** Reassessment leaves a case as it is, or takes it from WAITING_EXTERNAL to DETECTED and nowhere else. */
  lemma ReassessEvolves(c: Case, now: int)
    ensures var c' := Reassess(c, now);
      && CaseEvolves(c, c') && Unsettled(c, c') && c'.attemptCount == c.attemptCount
      && (c' != c ==> c.status == WAITING_EXTERNAL && c'.status == DETECTED && c'.trail == c.trail + [DETECTED])
  {
    if Tracked(c) && c.status == WAITING_EXTERNAL {
      MoveTracked(c, DETECTED);
    }
  }

  /** A case as the creation service leaves it. */
  predicate Opened(c: Case) {
    && c.trail == [DETECTED, ENRICHING, DIAGNOSING] && c.status == DIAGNOSING
    && c.attemptCount == 0 && c.amountRecovered == 0 && c.maxAttempts == 2
  }

  /** What holds of a case at any time: a history within its budget, and room for two contacts of a kind. */
  predicate SoundCase(c: Case) {
    Tracked(c) && WithinBudget(c) && c.maxAttempts == 2
  }

  lemma OpenedIsSound(c: Case)
    requires Opened(c)
    ensures SoundCase(c)
  {
    assert c.trail[..2] == [DETECTED, ENRICHING] && c.trail[..2][..1] == [DETECTED];
    assert Loops(c.trail[..2]) == 0;
  }

  // ---- Tables ----

  predicate CasesEvolve(a: seq<Case>, b: seq<Case>) {
    && |a| <= |b|
    && (forall i | 0 <= i < |a| :: CaseEvolves(a[i], b[i]))
    && forall i | |a| <= i < |b| :: SoundCase(b[i])
  }

  /** An attempt's status moves only to SUCCEEDED, and only where the attempt table allows it. */
  predicate AttemptEvolves(x: Attempt, y: Attempt) {
    && y == x.(status := y.status)
    && (y.status != x.status ==> y.status == SUCCEEDED && CanTransitionAttempt(x.status, SUCCEEDED))
  }

  predicate AttemptsEvolve(a: seq<Attempt>, b: seq<Attempt>) {
    |a| <= |b| && forall i | 0 <= i < |a| :: AttemptEvolves(a[i], b[i])
  }

  predicate PaymentsEvolve(a: seq<Payment>, b: seq<Payment>) {
    |a| <= |b| && forall i | 0 <= i < |a| :: b[i] == a[i].(status := b[i].status)
  }

  predicate EventEvolves(x: RawEvent, y: RawEvent) {
    y == x.(processed := y.processed) && (x.processed ==> y.processed)
  }

  predicate EventsEvolve(a: seq<RawEvent>, b: seq<RawEvent>) {
    |a| <= |b| && forall i | 0 <= i < |a| :: EventEvolves(a[i], b[i])
  }

  predicate OutcomesEvolve(a: seq<Outcome>, b: seq<Outcome>) {
    |a| <= |b| && forall i | 0 <= i < |a| :: b[i].caseId == a[i].caseId && b[i].merchant == a[i].merchant
  }

  /** A PAID order stays PAID, and a customer once attached stays. */
  predicate OrderEvolves(x: Order, y: Order) {
    && y == x.(status := y.status, customer := y.customer)
    && (x.status == OrderPaid ==> y.status == OrderPaid)
    && (x.customer.Some? ==> y.customer == x.customer)
  }

  /** Every order has an external id of its own: the gateway's, or one made up from the payment's. */
  predicate OrdersEvolve(a: seq<Order>, b: seq<Order>) {
    && |a| <= |b| && (forall i | 0 <= i < |a| :: OrderEvolves(a[i], b[i]))
    && forall i | |a| <= i < |b| :: b[i].externalId != ""
  }

  /** No row disappears, no identity changes, the ledger only grows. */
  predicate Evolves(a: Db, b: Db) {
    && CasesEvolve(a.cases, b.cases) && AttemptsEvolve(a.attempts, b.attempts)
    && PaymentsEvolve(a.payments, b.payments) && EventsEvolve(a.events, b.events)
    && OutcomesEvolve(a.outcomes, b.outcomes) && a.ledger <= b.ledger && a.decisions <= b.decisions
    && OrdersEvolve(a.orders, b.orders)
  }

  lemma CasesEvolveTransitive(a: seq<Case>, b: seq<Case>, c: seq<Case>)
    requires CasesEvolve(a, b) && CasesEvolve(b, c)
    ensures CasesEvolve(a, c)
  {
    forall i | 0 <= i < |a| ensures CaseEvolves(a[i], c[i]) {
      CaseEvolvesTransitive(a[i], b[i], c[i]);
    }
    forall i | |a| <= i < |c| ensures SoundCase(c[i]) {
      if i < |b| { assert CaseEvolves(b[i], c[i]); }
    }
  }

  lemma EvolvesTransitive(a: Db, b: Db, c: Db)
    requires Evolves(a, b) && Evolves(b, c)
    ensures Evolves(a, c)
  {
    CasesEvolveTransitive(a.cases, b.cases, c.cases);
    forall i | 0 <= i < |a.events| ensures EventEvolves(a.events[i], c.events[i]) {
      assert EventEvolves(a.events[i], b.events[i]) && EventEvolves(b.events[i], c.events[i]);
    }
    forall i | 0 <= i < |a.attempts| ensures AttemptEvolves(a.attempts[i], c.attempts[i]) {
      assert AttemptEvolves(a.attempts[i], b.attempts[i]) && AttemptEvolves(b.attempts[i], c.attempts[i]);
    }
    forall i | 0 <= i < |a.orders| ensures OrderEvolves(a.orders[i], c.orders[i]) {
      assert OrderEvolves(a.orders[i], b.orders[i]) && OrderEvolves(b.orders[i], c.orders[i]);
    }
    forall i | |a.orders| <= i < |c.orders| ensures c.orders[i].externalId != "" {
      if i < |b.orders| { assert OrderEvolves(b.orders[i], c.orders[i]); }
    }
  }
}
