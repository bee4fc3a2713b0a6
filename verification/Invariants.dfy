/** What holds of the database after every step of every run. */
module Invariants {
  import opened Domain
  import opened Tables
  import opened Services
  import opened Lifecycle
  import opened Effects

  // ---- Money ----

  /** The metrics endpoint's sum: successful outcomes of a merchant. */
  function SumOutcomes(outcomes: seq<Outcome>, merchant: nat): int {
    if outcomes == [] then 0
    else
      var o := outcomes[|outcomes| - 1];
      SumOutcomes(outcomes[..|outcomes| - 1], merchant)
      + if o.merchant == merchant && o.isSuccessful then o.amount else 0
  }

  function SumRecovered(cases: seq<Case>, merchant: nat): int {
    if cases == [] then 0
    else
      var c := cases[|cases| - 1];
      SumRecovered(cases[..|cases| - 1], merchant) + if c.merchant == merchant then c.amountRecovered else 0
  }

  /** An outcome, its case, its settling payment and its credited attempt agree to the cent. */
  predicate OutcomeOk(db: Db, o: Outcome) {
    && o.caseId < |db.cases| && o.settlingPayment < |db.payments| && o.isSuccessful
    && o.merchant == db.cases[o.caseId].merchant
    && o.amount == db.cases[o.caseId].amountRecovered
    && db.payments[o.settlingPayment].currency == db.cases[o.caseId].currency
    && OutcomeWritten(o, o.caseId, o.settlingPayment, db.payments[o.settlingPayment].amount, db.attempts)
  }

  predicate OneOutcomePerCase(outcomes: seq<Outcome>) {
    forall i, j | 0 <= i < j < |outcomes| :: outcomes[i].caseId != outcomes[j].caseId
  }

  predicate Unpaid(db: Db, caseId: nat)
    requires caseId < |db.cases|
  {
    FindOutcome(db.outcomes, caseId).None? ==>
      db.cases[caseId].amountRecovered == 0 && db.cases[caseId].status != RECOVERED
  }

  ghost predicate Money(db: Db) {
    && OneOutcomePerCase(db.outcomes)
    && (forall i | 0 <= i < |db.outcomes| :: OutcomeOk(db, db.outcomes[i]))
    && (forall c | 0 <= c < |db.cases| :: Unpaid(db, c))
    && forall merchant: nat :: SumOutcomes(db.outcomes, merchant) == SumRecovered(db.cases, merchant)
  }

  lemma {:induction false} SumRecoveredFrame(a: seq<Case>, b: seq<Case>, merchant: nat)
    requires |a| <= |b|
    requires forall i | 0 <= i < |a| :: b[i].merchant == a[i].merchant && b[i].amountRecovered == a[i].amountRecovered
    requires forall i | |a| <= i < |b| :: b[i].amountRecovered == 0
    ensures SumRecovered(b, merchant) == SumRecovered(a, merchant)
  {
    if b != [] {
      if |a| < |b| {
        SumRecoveredFrame(a, b[..|b| - 1], merchant);
      } else {
        SumRecoveredFrame(a[..|a| - 1], b[..|b| - 1], merchant);
      }
    }
  }

  lemma {:induction false} SumRecoveredUpdate(cases: seq<Case>, id: nat, c': Case, merchant: nat)
    requires id < |cases| && c'.merchant == cases[id].merchant
    ensures SumRecovered(cases[id := c'], merchant) == SumRecovered(cases, merchant)
      + if c'.merchant == merchant then c'.amountRecovered - cases[id].amountRecovered else 0
  {
    var n := |cases| - 1;
    if id == n {
      assert cases[id := c'][..n] == cases[..n];
    } else {
      assert cases[id := c'][..n] == cases[..n][id := c'];
      SumRecoveredUpdate(cases[..n], id, c', merchant);
    }
  }

  lemma {:induction false} SumOutcomesUpdate(outcomes: seq<Outcome>, at: nat, o: Outcome, merchant: nat)
    requires at < |outcomes| && o.merchant == outcomes[at].merchant && o.isSuccessful && outcomes[at].isSuccessful
    ensures SumOutcomes(outcomes[at := o], merchant) == SumOutcomes(outcomes, merchant)
      + if o.merchant == merchant then o.amount - outcomes[at].amount else 0
  {
    var n := |outcomes| - 1;
    if at == n {
      assert outcomes[at := o][..n] == outcomes[..n];
    } else {
      assert outcomes[at := o][..n] == outcomes[..n][at := o];
      SumOutcomesUpdate(outcomes[..n], at, o, merchant);
    }
  }

  lemma MoneyQuiet(a: Db, b: Db)
    requires Money(a) && Quiet(a, b)
    ensures Money(b)
  {
    forall i | 0 <= i < |b.outcomes| ensures OutcomeOk(b, b.outcomes[i]) {
      assert OutcomeOk(a, a.outcomes[i]);
      var o := a.outcomes[i];
      assert CaseEvolves(a.cases[o.caseId], b.cases[o.caseId]) && Unsettled(a.cases[o.caseId], b.cases[o.caseId]);
      if o.successfulAttempt.Some? {
        assert AttemptEvolves(a.attempts[o.successfulAttempt.value], b.attempts[o.successfulAttempt.value]);
      }
    }
    forall c | 0 <= c < |b.cases| ensures Unpaid(b, c) {
      if c < |a.cases| { assert Unpaid(a, c) && Unsettled(a.cases[c], b.cases[c]); }
    }
    forall merchant: nat ensures SumOutcomes(b.outcomes, merchant) == SumRecovered(b.cases, merchant) {
      forall i | 0 <= i < |a.cases|
        ensures b.cases[i].merchant == a.cases[i].merchant && b.cases[i].amountRecovered == a.cases[i].amountRecovered
      {
        assert CaseEvolves(a.cases[i], b.cases[i]) && Unsettled(a.cases[i], b.cases[i]);
      }
      SumRecoveredFrame(a.cases, b.cases, merchant);
    }
  }

  /** Both sums move by the same difference in a settlement. */
  lemma SumsSettled(a: Db, b: Db, caseId: nat, payId: nat, merchant: nat)
    requires Money(a) && caseId < |a.cases| && payId < |a.payments| && Settled(a, b, caseId, payId)
    ensures SumOutcomes(b.outcomes, merchant) == SumRecovered(b.cases, merchant)
  {
    var c := a.cases[caseId];
    var amount := a.payments[payId].amount;
    RecoverStatus(c, amount);
    SumRecoveredUpdate(a.cases, caseId, Recover(c, amount), merchant);
    FindOutcomeFound(a.outcomes, caseId);
    var existing := FindOutcome(a.outcomes, caseId);
    if existing.Some? {
      var at := existing.value;
      assert OutcomeOk(a, a.outcomes[at]);
      assert b.outcomes == a.outcomes[at := b.outcomes[at]];
      SumOutcomesUpdate(a.outcomes, at, b.outcomes[at], merchant);
    } else {
      assert Unpaid(a, caseId);
      assert b.outcomes[..|a.outcomes|] == a.outcomes;
    }
  }

  lemma MoneySettled(a: Db, b: Db, caseId: nat, payId: nat)
    requires Money(a) && caseId < |a.cases| && payId < |a.payments| && Settled(a, b, caseId, payId)
    requires SettlementValid(a.cases[caseId], a.payments[payId])
    ensures Money(b)
  {
    FindOutcomeFound(a.outcomes, caseId);
    var existing := FindOutcome(a.outcomes, caseId);
    var at := if existing.Some? then existing.value else |a.outcomes|;
    RecoverStatus(a.cases[caseId], a.payments[payId].amount);
    forall i | 0 <= i < |b.outcomes| ensures OutcomeOk(b, b.outcomes[i]) {
      var o := b.outcomes[i];
      if i != at {
        assert OutcomeOk(a, o);
        assert o.caseId != caseId;
      }
      if o.successfulAttempt.Some? {
        assert AttemptEvolves(a.attempts[o.successfulAttempt.value], b.attempts[o.successfulAttempt.value]);
      }
    }
    forall c | 0 <= c < |b.cases| ensures Unpaid(b, c) {
      assert Unpaid(a, c);
      FindOutcomeFound(a.outcomes, c);
      FindOutcomeFound(b.outcomes, c);
      assert c == caseId ==> b.outcomes[at].caseId == c;
    }
    forall merchant: nat ensures SumOutcomes(b.outcomes, merchant) == SumRecovered(b.cases, merchant) {
      SumsSettled(a, b, caseId, payId, merchant);
    }
  }

  // ---- One active case per order ----

  predicate UniqueActive(cases: seq<Case>) {
    forall i, j | 0 <= i < j < |cases| && cases[i].merchant == cases[j].merchant && cases[i].order == cases[j].order ::
      Terminal(cases[i].status) || Terminal(cases[j].status)
  }

  /** Case, order and payment rows of one order belong to one merchant. */
  predicate OrdersOwned(db: Db) {
    forall i | 0 <= i < |db.cases| ::
      db.cases[i].order < |db.orders| && db.orders[db.cases[i].order].merchant == db.cases[i].merchant
  }

  /** No order has the empty external id. */
  predicate KeyedOrders(orders: seq<Order>) {
    forall i | 0 <= i < |orders| :: orders[i].externalId != ""
  }

  lemma KeyedOrdersKept(a: seq<Order>, b: seq<Order>)
    requires KeyedOrders(a) && OrdersEvolve(a, b)
    ensures KeyedOrders(b)
  {
    forall i | 0 <= i < |b| ensures b[i].externalId != "" {
      if i < |a| { assert OrderEvolves(a[i], b[i]); }
    }
  }

  lemma UniqueActiveKept(a: seq<Case>, b: seq<Case>)
    requires UniqueActive(a) && CasesEvolve(a, b) && |a| == |b|
    ensures UniqueActive(b)
  {
    forall i, j | 0 <= i < j < |b| && b[i].merchant == b[j].merchant && b[i].order == b[j].order
      ensures Terminal(b[i].status) || Terminal(b[j].status)
    {
      assert CaseEvolves(a[i], b[i]) && CaseEvolves(a[j], b[j]);
    }
  }

  lemma UniqueActiveAppended(a: seq<Case>, b: seq<Case>, merchant: nat, order: nat)
    requires UniqueActive(a) && |b| == |a| + 1 && b[..|a|] == a
    requires b[|a|].merchant == merchant && b[|a|].order == order
    requires forall i | 0 <= i < |a| :: !ActiveFor(a[i], merchant, order)
    ensures UniqueActive(b)
  {
    forall i, j | 0 <= i < j < |b| && b[i].merchant == b[j].merchant && b[i].order == b[j].order
      ensures Terminal(b[i].status) || Terminal(b[j].status)
    {
      assert b[i] == a[i];
      if j < |a| { assert b[j] == a[j]; }
    }
  }

  /** With one active case per order, no lookup that expects at most one row ever sees two. */
  lemma LookupsNeverAmbiguous(db: Db, merchant: nat, order: nat)
    requires UniqueActive(db.cases) && OrdersOwned(db)
    ensures !AmbiguousActive(db.cases, merchant, order) && !AmbiguousVerifiable(db.cases, order)
  {
  }

  // ---- Attempts ----

  function CountAttempts(attempts: seq<Attempt>, caseId: nat): nat {
    if attempts == [] then 0
    else CountAttempts(attempts[..|attempts| - 1], caseId) + if attempts[|attempts| - 1].caseId == caseId then 1 else 0
  }

  predicate CompleteTrail(trail: seq<AuditAction>) {
    |trail| == 2 && trail[0] == AttemptCreated && trail[1] in {GatewayAccepted, ExecutionFailed}
  }

  /** A closed attempt and its ledger entries tell the same story. */
  predicate Told(a: Attempt, trail: seq<AuditAction>) {
    && CompleteTrail(trail) && a.status in {ACKNOWLEDGED, SUCCEEDED, FAILED}
    && (trail[1] == ExecutionFailed <==> a.status == FAILED)
  }

  /** A reminder carries a gateway reference only from an earlier payment link of its case. */
  predicate ReusesLink(attempts: seq<Attempt>, i: nat)
    requires i < |attempts|
  {
    attempts[i].action == CUSTOMER_REMINDER && attempts[i].gatewayRef.Some? ==>
      exists j :: 0 <= j < i && LinkOf(attempts[j], attempts[i])
  }

  predicate LinkOf(link: Attempt, reminder: Attempt) {
    link.caseId == reminder.caseId && link.action == PAYMENT_LINK && link.gatewayRef == reminder.gatewayRef
  }

  ghost predicate KeyOk(a: Attempt) {
    exists number: nat :: a.key == CommandKey(a.caseId, number, a.action)
  }

  predicate UniqueKeys(attempts: seq<Attempt>) {
    forall i, j | 0 <= i < j < |attempts| :: attempts[i].key != attempts[j].key
  }

  ghost predicate AttemptsOk(db: Db) {
    && UniqueKeys(db.attempts)
    && (forall i | 0 <= i < |db.attempts| :: db.attempts[i].caseId < |db.cases| && KeyOk(db.attempts[i]))
    && (forall c | 0 <= c < |db.cases| :: db.cases[c].attemptCount == CountAttempts(db.attempts, c))
    && (forall i | 0 <= i < |db.attempts| :: Told(db.attempts[i], AttemptTrail(db.ledger, i)))
    && (forall i | 0 <= i < |db.attempts| :: ReusesLink(db.attempts, i))
    && forall i: nat | i >= |db.attempts| :: AttemptTrail(db.ledger, i) == []
  }

  lemma {:induction false} CountAttemptsFrame(a: seq<Attempt>, b: seq<Attempt>, caseId: nat)
    requires AttemptsEvolve(a, b) && |a| == |b|
    ensures CountAttempts(b, caseId) == CountAttempts(a, caseId)
  {
    if a != [] {
      var n := |a| - 1;
      assert forall i | 0 <= i < n :: AttemptEvolves(a[..n][i], b[..n][i]);
      assert AttemptEvolves(a[n], b[n]);
      CountAttemptsFrame(a[..n], b[..n], caseId);
    }
  }

  lemma {:induction false} CountAttemptsNone(attempts: seq<Attempt>, caseId: nat)
    requires forall i | 0 <= i < |attempts| :: attempts[i].caseId != caseId
    ensures CountAttempts(attempts, caseId) == 0
  {
    if attempts != [] { CountAttemptsNone(attempts[..|attempts| - 1], caseId); }
  }

  lemma AttemptsOkWithoutExecution(a: Db, b: Db)
    requires AttemptsOk(a) && Evolves(a, b) && NoExecution(a, b)
    ensures AttemptsOk(b)
  {
    assert forall i | 0 <= i < |a.attempts| :: AttemptEvolves(a.attempts[i], b.attempts[i]);
    forall i | 0 <= i < |b.attempts| ensures b.attempts[i].caseId < |b.cases| && KeyOk(b.attempts[i]) {
      assert KeyOk(a.attempts[i]);
    }
    forall c | 0 <= c < |b.cases| ensures b.cases[c].attemptCount == CountAttempts(b.attempts, c) {
      CountAttemptsFrame(a.attempts, b.attempts, c);
      if c >= |a.cases| { CountAttemptsNone(a.attempts, c); }
    }
    forall i | 0 <= i < |b.attempts| ensures ReusesLink(b.attempts, i) {
      LinksKept(a.attempts, b.attempts, i);
    }
  }

  lemma LinksKept(a: seq<Attempt>, b: seq<Attempt>, i: nat)
    requires AttemptsEvolve(a, b) && i < |a| && ReusesLink(a, i)
    ensures ReusesLink(b, i)
  {
    assert AttemptEvolves(a[i], b[i]);
    if b[i].action == CUSTOMER_REMINDER && b[i].gatewayRef.Some? {
      var j :| 0 <= j < i && LinkOf(a[j], a[i]);
      assert AttemptEvolves(a[j], b[j]);
      assert LinkOf(b[j], b[i]);
    }
  }

  /** Success, status and reference of an executor's result agree; a link succeeds exactly when order and merchant exist
      and the gateway accepts, and a reminder when there is a link of its case, the merchant exists and the gateway
      accepts; the reminder's reference is that earlier link's. */
  lemma ExecutorResults(db: Db, cmd: Command, env: Env)
    requires cmd.caseId < |db.cases|
    ensures var r := RunExecutor(db, cmd, env);
      r.Some? ==>
        && r.value.attemptStatus in {ACKNOWLEDGED, SUCCEEDED, FAILED}
        && (r.value.isSuccess <==> r.value.attemptStatus != FAILED)
        && (cmd.action == PAYMENT_LINK ==>
             (r.value.isSuccess <==>
                db.cases[cmd.caseId].order < |db.orders| && env.merchantExists && env.reply.GatewayOk?))
        && (cmd.action == CUSTOMER_REMINDER ==>
             (r.value.isSuccess <==>
                r.value.gatewayRef.Some? && env.merchantExists && env.reply.GatewayOk?))
        && (cmd.action == CUSTOMER_REMINDER && r.value.gatewayRef.Some? ==>
             exists j :: 0 <= j < |db.attempts| && HoldsLink(db.attempts[j], cmd.caseId)
               && db.attempts[j].gatewayRef == r.value.gatewayRef)
  {
    PriorLinkIsNewest(db.attempts, cmd.caseId);
  }

  lemma ExecutedReuses(a: Db, b: Db, cmd: Command, env: Env, now: int, dispatchedAt: int, i: nat)
    requires cmd.caseId < |a.cases| && RunExecutor(a, cmd, env).Some? && i < |b.attempts|
    requires Executed(a, b, cmd, RunExecutor(a, cmd, env).value, now, dispatchedAt)
    requires i < |a.attempts| ==> ReusesLink(a.attempts, i)
    ensures ReusesLink(b.attempts, i)
  {
    assert b.attempts[..|a.attempts|] == a.attempts;
    if b.attempts[i].action == CUSTOMER_REMINDER && b.attempts[i].gatewayRef.Some? {
      if i < |a.attempts| {
        var j :| 0 <= j < i && LinkOf(a.attempts[j], a.attempts[i]);
        assert LinkOf(b.attempts[j], b.attempts[i]);
      } else {
        ExecutorResults(a, cmd, env);
        var j :| 0 <= j < |a.attempts| && HoldsLink(a.attempts[j], cmd.caseId)
          && a.attempts[j].gatewayRef == RunExecutor(a, cmd, env).value.gatewayRef;
        assert LinkOf(b.attempts[j], b.attempts[i]);
      }
    }
  }

  lemma TrailAppended(ledger: seq<Audit>, first: Audit, second: Audit, id: nat)
    ensures AttemptTrail(ledger + [first] + [second], id)
      == AttemptTrail(ledger, id)
         + (if first.entity == AttemptEntity(id) then [first.action] else [])
         + (if second.entity == AttemptEntity(id) then [second.action] else [])
  {
    assert (ledger + [first] + [second])[..|ledger| + 1] == ledger + [first];
    assert (ledger + [first])[..|ledger|] == ledger;
  }

  lemma ExecutedTrails(a: Db, b: Db, cmd: Command, r: ExecResult, now: int, dispatchedAt: int, id: nat)
    requires cmd.caseId < |a.cases| && Executed(a, b, cmd, r, now, dispatchedAt)
    ensures AttemptTrail(b.ledger, id) == AttemptTrail(a.ledger, id)
      + if id == |a.attempts| then [AttemptCreated, if r.isSuccess then GatewayAccepted else ExecutionFailed] else []
  {
    var merchant := a.cases[cmd.caseId].merchant;
    TrailAppended(a.ledger, Audit(merchant, AttemptEntity(|a.attempts|), AttemptCreated, ORCHESTRATOR),
      Audit(merchant, AttemptEntity(|a.attempts|), if r.isSuccess then GatewayAccepted else ExecutionFailed,
        ORCHESTRATOR), id);
  }

  lemma ExecutedCount(a: Db, b: Db, cmd: Command, r: ExecResult, now: int, dispatchedAt: int, c: nat)
    requires cmd.caseId < |a.cases| && Executed(a, b, cmd, r, now, dispatchedAt) && c < |a.cases|
    requires a.cases[c].attemptCount == CountAttempts(a.attempts, c)
    ensures b.cases[c].attemptCount == CountAttempts(b.attempts, c)
  {
    assert b.attempts[..|a.attempts|] == a.attempts;
  }

  lemma AttemptsOkExecuted(a: Db, b: Db, cmd: Command, number: nat, env: Env, now: int, dispatchedAt: int)
    requires AttemptsOk(a) && cmd.caseId < |a.cases| && RunExecutor(a, cmd, env).Some?
    requires Executed(a, b, cmd, RunExecutor(a, cmd, env).value, now, dispatchedAt)
    requires cmd.key == CommandKey(cmd.caseId, number, cmd.action) && FindAttempt(a.attempts, cmd.key).None?
    ensures AttemptsOk(b)
  {
    var n := |a.attempts|;
    var r := RunExecutor(a, cmd, env).value;
    FindAttemptFound(a.attempts, cmd.key);
    ExecutorResults(a, cmd, env);
    assert KeyOk(b.attempts[n]);
    forall i | 0 <= i < |b.attempts| ensures b.attempts[i].caseId < |b.cases| && KeyOk(b.attempts[i]) {
      if i < n { assert b.attempts[i] == a.attempts[i] && KeyOk(a.attempts[i]); }
    }
    forall c | 0 <= c < |b.cases| ensures b.cases[c].attemptCount == CountAttempts(b.attempts, c) {
      ExecutedCount(a, b, cmd, r, now, dispatchedAt, c);
    }
    forall i | 0 <= i < |b.attempts| ensures Told(b.attempts[i], AttemptTrail(b.ledger, i)) {
      ExecutedTrails(a, b, cmd, r, now, dispatchedAt, i);
    }
    forall i | 0 <= i < |b.attempts| ensures ReusesLink(b.attempts, i) {
      ExecutedReuses(a, b, cmd, env, now, dispatchedAt, i);
    }
    forall i: nat | i >= |b.attempts| ensures AttemptTrail(b.ledger, i) == [] {
      ExecutedTrails(a, b, cmd, r, now, dispatchedAt, i);
    }
  }

  // ---- Webhook events and customer counters ----

  predicate UniqueEvents(events: seq<RawEvent>) {
    forall i, j | 0 <= i < j < |events| ::
      !(events[i].merchant == events[j].merchant && events[i].eventId == events[j].eventId)
  }

  predicate CountsAsFailure(e: RawEvent) {
    e.processed && e.payload.Some? && AddsFailure(e.payload.value)
  }

  function CountFailures(events: seq<RawEvent>): nat {
    if events == [] then 0
    else CountFailures(events[..|events| - 1]) + if CountsAsFailure(events[|events| - 1]) then 1 else 0
  }

  function SumFailures(customers: seq<Customer>): nat {
    if customers == [] then 0
    else SumFailures(customers[..|customers| - 1]) + customers[|customers| - 1].totalFailures
  }

  function SumCredits(customers: seq<Customer>): nat {
    if customers == [] then 0
    else SumCredits(customers[..|customers| - 1]) + customers[|customers| - 1].credits
  }

  /** Writes to customers' rows are as many as the distinct processed failures that named a contact. */
  predicate Counted(db: Db) {
    UniqueEvents(db.events) && SumCredits(db.customers) == CountFailures(db.events)
  }

  lemma {:induction false} CountFailuresUpdate(events: seq<RawEvent>, i: nat, e: RawEvent)
    requires i < |events|
    ensures CountFailures(events[i := e]) == CountFailures(events)
      + (if CountsAsFailure(e) then 1 else 0) - (if CountsAsFailure(events[i]) then 1 else 0)
  {
    var n := |events| - 1;
    if i == n {
      assert events[i := e][..n] == events[..n];
    } else {
      assert events[i := e][..n] == events[..n][i := e];
      CountFailuresUpdate(events[..n], i, e);
    }
  }

  lemma {:induction false} SumCreditsUpdate(customers: seq<Customer>, i: nat, u: Customer)
    requires i < |customers|
    ensures SumCredits(customers[i := u]) == SumCredits(customers) + u.credits - customers[i].credits
  {
    var n := |customers| - 1;
    if i == n {
      assert customers[i := u][..n] == customers[..n];
    } else {
      assert customers[i := u][..n] == customers[..n][i := u];
      SumCreditsUpdate(customers[..n], i, u);
    }
  }

  /** Synchronising one payload writes one row for a failure with a contact, and none for anything else. */
  lemma SyncCountsOnce(db: Db, merchant: nat, p: Payload, read: CustomerRead)
    ensures var (db', order, pay) := SyncAll(db, merchant, p, read);
      && db'.customers == SyncCustomer(db, merchant, p, read).0.customers
      && SumCredits(db'.customers) == SumCredits(db.customers) + if AddsFailure(p) then 1 else 0
  {
    var (db1, customer) := SyncCustomer(db, merchant, p, read);
    if HasContact(p) {
      match CustomerToWrite(db.customers, merchant, p, read) {
        case None => assert db1.customers[..|db.customers|] == db.customers;
        case Some((i, total, name)) => SumCreditsUpdate(db.customers, i, db1.customers[i]);
      }
    }
    SyncKeepsCustomers(db1, merchant, customer, p);
  }

  lemma SyncKeepsCustomers(db: Db, merchant: nat, customer: Option<nat>, p: Payload)
    ensures var (db1, order) := SyncOrder(db, merchant, customer, p);
      var (db2, pay) := SyncPayment(db1, merchant, order, p);
      db2.customers == db.customers
  {
    FindOrderFound(db.orders, merchant, OrderKey(p));
    var (db1, order) := SyncOrder(db, merchant, customer, p);
    FindPaymentFound(db1.payments, merchant, p.externalPaymentId);
  }

  lemma IngestKeepsCounted(db: Db, merchant: nat, eventId: string, payload: Option<Payload>)
    requires Counted(db)
    ensures Counted(IngestWebhook(db, merchant, eventId, payload).0)
  {
    FindEventFound(db.events, merchant, eventId);
    var (db', r) := IngestWebhook(db, merchant, eventId, payload);
    if !r.isDuplicate {
      assert db'.events[..|db.events|] == db.events;
    }
  }
}
