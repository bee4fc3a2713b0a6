/** Reachable stores to start from: one shop, one order, and what a few events make of them. */
module Scenarios {
  import opened Domain
  import opened Tables
  import opened Decision
  import opened Services
  import opened Effects
  import opened Invariants
  import opened Runs
  import DecisionOutcomes
  import OrderSync = OrderPaymentSync

  /** A merchant, an order's external id, its currency, and the customer's email, or the empty string. */
  datatype Shop = Shop(merchant: nat, key: string, currency: string, email: string)

  predicate ShopOk(shop: Shop) {
    shop.key != "" && |shop.currency| == 3
  }

  const LINKS_ONLY := Policy(5, 0, 1000000, {CUSTOMER_REMINDER, WAIT_AND_REASSESS, HUMAN_ESCALATION, DO_NOTHING})
  const NEWCOMER := Context(false, 0, 0, 0, false)
  const ANY_MODEL: Model := map[]
  const NO_ID := ""

  function FailureEvent(shop: Shop, id: string): Payload {
    Payload("payment.failed", id, shop.key, 1000, shop.currency, "failed", shop.email, "", "", UNKNOWN, false, None, "")
  }

  /** A success event of some type and payment status, without contact. */
  function SuccessEvent(shop: Shop, id: string, eventType: string, status: string): Payload {
    Payload(eventType, id, shop.key, 1000, shop.currency, status, "", "", "", UNKNOWN, false, None, "")
  }

  function Row(shop: Shop, id: string, status: PaymentStatus): Payment {
    Payment(shop.merchant, 0, id, 1000, shop.currency, status)
  }

  lemma StatusTexts()
    ensures MappedStatus("failed") == PayFailed && MappedStatus("captured") == PayCaptured
    ensures MappedStatus("authorized") == PayAuthorized
  {
    assert |Lower("failed")| == 6 && |Lower("authorized")| == 10;
    assert Lower("captured") == "captured";
    assert Lower("authorized") == "authorized";
  }

  // ---- One call at a time ----

  predicate NewEvent(db: Db, e: string) {
    forall i | 0 <= i < |db.events| :: db.events[i].eventId != e
  }

  lemma IngestNew(db: Db, shop: Shop, e: string, p: Payload)
    requires NewEvent(db, e)
    ensures Apply(db, Ingest(shop.merchant, e, Some(p)))
      == db.(events := db.events + [RawEvent(shop.merchant, e, Some(p), false)])
  {
    FindEventFound(db.events, shop.merchant, e);
  }

  /** The shop's order is the store's only order. */
  predicate OneOrder(db: Db, shop: Shop) {
    |db.orders| == 1 && db.orders[0].merchant == shop.merchant && db.orders[0].externalId == shop.key
  }

  lemma TheOrderIsFound(db: Db, shop: Shop)
    requires OneOrder(db, shop)
    ensures FindOrder(db.orders, shop.merchant, shop.key) == Some(0)
  {
    FindOrderFound(db.orders, shop.merchant, shop.key);
  }

  predicate NewPayment(db: Db, id: string) {
    forall i | 0 <= i < |db.payments| :: db.payments[i].externalId != id
  }

  lemma SyncKnownOrder(db: Db, shop: Shop, p: Payload)
    requires OneOrder(db, shop) && OrderKey(p) == shop.key
    ensures var (db', order, pay) := SyncAll(db, shop.merchant, p, ReadsNow);
      && OneOrder(db', shop) && order == 0
      && db'.orders[0].status == OrderSync.NextOrderStatus(Some(db.orders[0].status), IsCapturedEvent(p))
      && (db'.payments, pay)
         == (SyncPayment(db, shop.merchant, 0, p).0.payments, SyncPayment(db, shop.merchant, 0, p).1)
      && db'.customers == SyncCustomer(db, shop.merchant, p, ReadsNow).0.customers
      && db' == db.(orders := db'.orders, payments := db'.payments, customers := db'.customers)
  {
    SyncAllTouches(db, shop.merchant, p, ReadsNow);
    var (db1, customer) := SyncCustomer(db, shop.merchant, p, ReadsNow);
    TheOrderIsFound(db1, shop);
    FindPaymentFound(db.payments, shop.merchant, p.externalPaymentId);
  }

  /** A case as the failure event opens it. */
  predicate OpenCase(c: Case, shop: Shop) {
    && c.merchant == shop.merchant && c.order == 0 && c.amountAtRisk == 1000 && c.amountRecovered == 0
    && c.currency == shop.currency && c.status == DIAGNOSING && c.category == Some(UNKNOWN)
    && c.attemptCount == 0 && c.maxAttempts == 2 && c.deadline == RECOVERY_WINDOW
    && c.lastAttemptAt.None? && c.probability.None? && c.expectedValue.None?
  }

  predicate Waits(db: Db, rawId: nat, shop: Shop, p: Payload) {
    && rawId < |db.events| && !db.events[rawId].processed
    && db.events[rawId].merchant == shop.merchant && db.events[rawId].payload == Some(p)
  }

  function Processing(rawId: nat): Op {
    Process(rawId, 0, NOTHING_MISSED, NO_ID)
  }

  lemma SyncFirstFailure(db: Db, shop: Shop, id: string)
    requires ShopOk(shop) && db.orders == [] && NewPayment(db, id)
    ensures var (db', order, pay) := SyncAll(db, shop.merchant, FailureEvent(shop, id), ReadsNow);
      && OneOrder(db', shop) && order == 0 && pay == |db.payments|
      && db'.payments == db.payments + [Row(shop, id, PayFailed)]
      && db'.customers == SyncCustomer(db, shop.merchant, FailureEvent(shop, id), ReadsNow).0.customers
      && db' == db.(orders := db'.orders, payments := db'.payments, customers := db'.customers)
  {
    FindPaymentFound(db.payments, shop.merchant, id);
    StatusTexts();
  }

  lemma SyncNewFailure(db: Db, shop: Shop, id: string)
    requires ShopOk(shop) && OneOrder(db, shop) && NewPayment(db, id)
    ensures var (db', order, pay) := SyncAll(db, shop.merchant, FailureEvent(shop, id), ReadsNow);
      && OneOrder(db', shop) && order == 0 && pay == |db.payments|
      && db'.payments == db.payments + [Row(shop, id, PayFailed)]
      && db'.customers == SyncCustomer(db, shop.merchant, FailureEvent(shop, id), ReadsNow).0.customers
      && db' == db.(orders := db'.orders, payments := db'.payments, customers := db'.customers)
  {
    FindPaymentFound(db.payments, shop.merchant, id);
    StatusTexts();
    SyncKnownOrder(db, shop, FailureEvent(shop, id));
  }

  /** A failure of a new payment, on an order without an active case, opens one. */
  lemma FailureOpens(db: Db, rawId: nat, shop: Shop, id: string)
    requires ShopOk(shop) && Waits(db, rawId, shop, FailureEvent(shop, id))
    requires (db.orders == [] || OneOrder(db, shop)) && NewPayment(db, id)
    requires forall i | 0 <= i < |db.cases| :: !ActiveFor(db.cases[i], shop.merchant, 0)
    ensures var db' := Apply(db, Processing(rawId));
      && OneOrder(db', shop) && db'.payments == db.payments + [Row(shop, id, PayFailed)]
      && |db'.cases| == |db.cases| + 1 && db'.cases[..|db.cases|] == db.cases
      && OpenCase(db'.cases[|db.cases|], shop)
      && db'.outcomes == db.outcomes && db'.attempts == db.attempts
      && db'.customers == SyncCustomer(db, shop.merchant, FailureEvent(shop, id), ReadsNow).0.customers
      && db'.events == db.events[rawId := db.events[rawId].(processed := true)]
  {
    if db.orders == [] { SyncFirstFailure(db, shop, id); } else { SyncNewFailure(db, shop, id); }
    var (synced, order, pay) := SyncAll(db, shop.merchant, FailureEvent(shop, id), ReadsNow);
    FirstActiveFound(synced.cases, shop.merchant, 0);
    CreateOpens(synced, pay, shop, FailureEvent(shop, id));
  }

  lemma CreateOpens(db: Db, pay: nat, shop: Shop, p: Payload)
    requires pay < |db.payments| && p.category == UNKNOWN && FirstActive(db.cases, shop.merchant, 0).None?
    requires db.payments[pay].amount == 1000 && db.payments[pay].currency == shop.currency
    requires forall i | 0 <= i < |db.cases| :: !ActiveFor(db.cases[i], shop.merchant, 0)
    ensures var r := CreateOrUpdateCase(db, shop.merchant, 0, pay, p, 0, false);
      && r.Commit? && |r.db.cases| == |db.cases| + 1 && r.db.cases[..|db.cases|] == db.cases
      && OpenCase(r.db.cases[|db.cases|], shop) && r.db.cases[|db.cases|].initialPayment == pay
      && r.db == db.(cases := r.db.cases, ledger := r.db.ledger)
  {
  }

  /** The deterministic decision approves a payment link for an open case. */
  lemma DecisionApproves(db: Db, id: nat, shop: Shop)
    requires ShopOk(shop) && id < |db.cases| && OpenCase(db.cases[id], shop)
    ensures var db' := Apply(db, Approving(id));
      && db' == db.(cases := db'.cases, decisions := db'.decisions, ledger := db'.ledger)
      && |db'.cases| == |db.cases| && (forall i | 0 <= i < |db.cases| && i != id :: db'.cases[i] == db.cases[i])
      && db'.cases[id].status == APPROVED && db'.cases[id].order == 0 && db'.cases[id].merchant == shop.merchant
      && db'.cases[id].currency == shop.currency && db'.cases[id].attemptCount == 0
      && db'.cases[id].initialPayment == db.cases[id].initialPayment
  {
    var c := db.cases[id];
    DecisionOutcomes.OnlyLinkIsOffered(c, NEWCOMER, LINKS_ONLY, ANY_MODEL);
    CaseDecisionConcludes(db, id, NEWCOMER, LINKS_ONLY, ANY_MODEL, 0);
    var rankings := Rankings(ANY_MODEL, c, NEWCOMER, LINKS_ONLY);
    assert EvaluatePolicy(PAYMENT_LINK, c, NEWCOMER, LINKS_ONLY, rankings, 0).verdict == VerdictApproved;
  }

  function Approving(id: nat): Op {
    Decide(id, NEWCOMER, LINKS_ONLY, ANY_MODEL, 0)
  }

  const LINK_CREATED := Env(true, GatewayOk(Some("l")))

  function Sending(id: nat): Op {
    Execute(id, PAYMENT_LINK, 1, CommandPayload(POLICY_APPROVAL_CLEARED, None, None), LINK_CREATED, 0, 0)
  }

  /** A case's first command has a key of its own. */
  lemma FirstKeyIsNew(db: Db, id: nat, number: nat, a: ActionType)
    requires AttemptsOk(db) && id < |db.cases| && db.cases[id].attemptCount == 0
    ensures FindAttempt(db.attempts, CommandKey(id, number, a)).None?
  {
    var key := CommandKey(id, number, a);
    NoAttempts(db.attempts, id);
    FindAttemptFound(db.attempts, key);
    if FindAttempt(db.attempts, key).Some? {
      var i := FindAttempt(db.attempts, key).value;
      assert KeyOk(db.attempts[i]);
      var other: nat :| key == CommandKey(db.attempts[i].caseId, other, db.attempts[i].action);
      CommandKeyInjective(id, number, a, db.attempts[i].caseId, other, db.attempts[i].action);
    }
  }

  lemma {:induction false} NoAttempts(attempts: seq<Attempt>, id: nat)
    requires CountAttempts(attempts, id) == 0
    ensures forall i | 0 <= i < |attempts| :: attempts[i].caseId != id
  {
    if attempts != [] { NoAttempts(attempts[..|attempts| - 1], id); }
  }

  /** An approved case's link is created, and the case waits. */
  lemma LinkIsSent(db: Db, id: nat, shop: Shop)
    requires OneOrder(db, shop) && FindAttempt(db.attempts, CommandKey(id, 1, PAYMENT_LINK)).None?
    requires id < |db.cases| && db.cases[id].status == APPROVED && db.cases[id].order == 0
    ensures var db' := Apply(db, Sending(id));
      && |db'.cases| == |db.cases| && (forall i | 0 <= i < |db.cases| && i != id :: db'.cases[i] == db.cases[i])
      && db'.cases[id].status == WAITING_EXTERNAL && db'.cases[id].order == 0
      && db'.cases[id].merchant == db.cases[id].merchant && db'.cases[id].currency == db.cases[id].currency
      && db'.cases[id].initialPayment == db.cases[id].initialPayment
      && db'.orders == db.orders && db'.payments == db.payments
      && db'.outcomes == db.outcomes && db'.events == db.events
      && |db'.attempts| == |db.attempts| + 1 && LinkSentFor(db'.attempts[|db.attempts|], id)
  {
  }

  predicate LinkSentFor(a: Attempt, id: nat) {
    a.caseId == id && a.action == PAYMENT_LINK && a.status == ACKNOWLEDGED && a.gatewayRef == Some("l")
  }

  // ---- Runs so far ----

  ghost predicate Reached(db: Db) {
    exists ops :: Run(EMPTY, ops) == db
  }

  lemma {:induction false} RunThen(db: Db, ops: seq<Op>, op: Op)
    ensures Run(db, ops + [op]) == Apply(Run(db, ops), op)
    decreases |ops|
  {
    if ops == [] {
      assert ops + [op] == [op] && [op][1..] == [];
    } else {
      assert (ops + [op])[1..] == ops[1..] + [op];
      RunThen(Apply(db, ops[0]), ops[1..], op);
    }
  }

  lemma ReachedNext(db: Db, op: Op)
    requires Reached(db)
    ensures Reached(Apply(db, op))
  {
    var ops :| Run(EMPTY, ops) == db;
    RunThen(EMPTY, ops, op);
  }

  lemma ReachedStart()
    ensures Reached(EMPTY)
  {
    assert Run(EMPTY, []) == EMPTY;
  }

  lemma ReachedSound(db: Db)
    requires Reached(db)
    ensures Core(db)
  {
    var ops :| Run(EMPTY, ops) == db;
    EmptyInv();
    RunKeepsInv(EMPTY, ops);
  }

  lemma ReachedKeyIsNew(db: Db, id: nat)
    requires Reached(db) && id < |db.cases| && db.cases[id].attemptCount == 0
    ensures FindAttempt(db.attempts, CommandKey(id, 1, PAYMENT_LINK)).None?
  {
    ReachedSound(db);
    FirstKeyIsNew(db, id, 1, PAYMENT_LINK);
  }

  /** Another event arrives. */
  lemma Deliver(db: Db, shop: Shop, e: string, p: Payload) returns (db': Db)
    requires Reached(db) && NewEvent(db, e)
    ensures Reached(db') && db' == db.(events := db.events + [RawEvent(shop.merchant, e, Some(p), false)])
    ensures Waits(db', |db.events|, shop, p)
  {
    var ingest := Ingest(shop.merchant, e, Some(p));
    IngestNew(db, shop, e, p);
    ReachedNext(db, ingest);
    db' := Apply(db, ingest);
  }

  // ---- First stages ----

  /** The order's payment failed and a case was opened. */
  predicate CaseOut(db: Db, shop: Shop, id: string) {
    && OneOrder(db, shop) && db.payments == [Row(shop, id, PayFailed)] && db.outcomes == [] && db.attempts == []
    && |db.cases| == 1 && OpenCase(db.cases[0], shop)
    && db.events == [RawEvent(shop.merchant, "a", Some(FailureEvent(shop, id)), true)]
    && db.customers == SyncCustomer(EMPTY, shop.merchant, FailureEvent(shop, id), ReadsNow).0.customers
  }

  lemma ReachCase(shop: Shop, id: string) returns (db: Db)
    requires ShopOk(shop)
    ensures Reached(db) && CaseOut(db, shop, id)
  {
    ReachedStart();
    var d1 := Deliver(EMPTY, shop, "a", FailureEvent(shop, id));
    FailureOpens(d1, 0, shop, id);
    ReachedNext(d1, Processing(0));
    db := Apply(d1, Processing(0));
  }

  /** The case was sent a payment link and waits. */
  predicate LinkOut(db: Db, shop: Shop, id: string) {
    && OneOrder(db, shop) && db.payments == [Row(shop, id, PayFailed)] && db.outcomes == []
    && |db.cases| == 1 && db.cases[0].status == WAITING_EXTERNAL
    && db.cases[0].merchant == shop.merchant && db.cases[0].order == 0 && db.cases[0].currency == shop.currency
    && db.events == [RawEvent(shop.merchant, "a", Some(FailureEvent(shop, id)), true)]
  }

  lemma ReachLinkOut(shop: Shop, id: string) returns (db: Db)
    requires ShopOk(shop)
    ensures Reached(db) && LinkOut(db, shop, id)
  {
    var d2 := ReachCase(shop, id);
    DecisionApproves(d2, 0, shop);
    ReachedNext(d2, Approving(0));
    var d3 := Apply(d2, Approving(0));
    ReachedKeyIsNew(d3, 0);
    LinkIsSent(d3, 0, shop);
    ReachedNext(d3, Sending(0));
    db := Apply(d3, Sending(0));
  }

  // ---- The link is paid ----

  lemma SyncNewSuccess(db: Db, shop: Shop, id: string, eventType: string, status: string)
    requires ShopOk(shop) && OneOrder(db, shop) && NewPayment(db, id)
    ensures var p := SuccessEvent(shop, id, eventType, status);
      var (db', order, pay) := SyncAll(db, shop.merchant, p, ReadsNow);
      && OneOrder(db', shop) && order == 0
      && db'.orders[0].status == OrderSync.NextOrderStatus(Some(db.orders[0].status), IsCapturedEvent(p))
      && db'.payments == db.payments + [Row(shop, id, MappedStatus(status))]
      && FindPayment(db'.payments, shop.merchant, id) == Some(|db.payments|)
      && db' == db.(orders := db'.orders, payments := db'.payments)
  {
    var p := SuccessEvent(shop, id, eventType, status);
    FindPaymentFound(db.payments, shop.merchant, id);
    SyncKnownOrder(db, shop, p);
    FindPaymentFound(SyncAll(db, shop.merchant, p, ReadsNow).0.payments, shop.merchant, id);
  }

  /** An event that the verification takes up, of a new payment, recovers the one waiting case. */
  lemma SuccessRecovers(db: Db, rawId: nat, shop: Shop, id: string, eventType: string, status: string)
    requires ShopOk(shop) && OneOrder(db, shop) && NewPayment(db, id) && db.outcomes == []
    requires Waits(db, rawId, shop, SuccessEvent(shop, id, eventType, status))
    requires TakenUp(SuccessEvent(shop, id, eventType, status))
    requires |db.cases| == 1 && db.cases[0].status == WAITING_EXTERNAL
    requires db.cases[0].order == 0 && db.cases[0].currency == shop.currency
    ensures var p := SuccessEvent(shop, id, eventType, status);
      var db' := Apply(db, Processing(rawId));
      && OneOrder(db', shop) && db'.payments == db.payments + [Row(shop, id, PayCaptured)]
      && db'.orders[0].status == OrderSync.NextOrderStatus(Some(db.orders[0].status), IsCapturedEvent(p))
      && |db'.cases| == 1 && db'.cases[0].status == RECOVERED
      && |db'.outcomes| == 1 && db'.outcomes[0].caseId == 0 && db'.outcomes[0].settlingPayment == |db.payments|
      && db'.events == db.events[rawId := db.events[rawId].(processed := true)]
  {
    var p := SuccessEvent(shop, id, eventType, status);
    SyncNewSuccess(db, shop, id, eventType, status);
    var synced := SyncAll(db, shop.merchant, p, ReadsNow).0;
    VerifyNewPayment(synced, |db.payments|, shop, p);
    assert synced.payments[|db.payments| := Row(shop, id, PayCaptured)] == db.payments + [Row(shop, id, PayCaptured)];
  }

  lemma VerifyNewPayment(db: Db, payId: nat, shop: Shop, p: Payload)
    requires OneOrder(db, shop) && db.outcomes == [] && payId < |db.payments| && IsCaptureEvent(p)
    requires p.externalOrderId == shop.key && p.linkId == ""
    requires db.payments[payId] == Row(shop, p.externalPaymentId, db.payments[payId].status)
    requires FindPayment(db.payments, shop.merchant, p.externalPaymentId) == Some(payId)
    requires |db.cases| == 1 && db.cases[0].status == WAITING_EXTERNAL
    requires db.cases[0].order == 0 && db.cases[0].currency == shop.currency
    ensures var r := VerifyFromWebhook(db, shop.merchant, p, NO_ID);
      && r.Commit? && r.db.orders == db.orders && r.db.events == db.events
      && r.db.payments == db.payments[payId := Row(shop, p.externalPaymentId, PayCaptured)]
      && |r.db.cases| == 1 && r.db.cases[0].status == RECOVERED
      && |r.db.outcomes| == 1 && r.db.outcomes[0].caseId == 0 && r.db.outcomes[0].settlingPayment == payId
  {
    TheOrderIsFound(db, shop);
    FirstVerifiableFound(db.cases, 0);
    assert Verifiable(db.cases[0], 0);
    var paid := db.(payments := db.payments[payId := Row(shop, p.externalPaymentId, PayCaptured)]);
    VerifyEffect(paid, 0, payId, "");
    RecoveredAtOnce(db.cases[0]);
  }

  lemma RecoveredAtOnce(c: Case)
    requires c.status == WAITING_EXTERNAL
    ensures Recover(c, 1000).status == RECOVERED
  {
  }

  /** The link was paid and the case recovered. */
  predicate RecoveredRows(db: Db, shop: Shop, id: string, paid: string) {
    && OneOrder(db, shop) && db.orders[0].status == OrderPaid
    && db.payments == [Row(shop, id, PayFailed), Row(shop, paid, PayCaptured)]
    && |db.outcomes| == 1 && db.outcomes[0].caseId == 0 && db.outcomes[0].settlingPayment == 1
    && |db.cases| == 1 && db.cases[0].status == RECOVERED
  }

  predicate Recovered(db: Db, shop: Shop, id: string, paid: string) {
    && RecoveredRows(db, shop, id, paid)
    && |db.events| == 2 && db.events[0].eventId == "a" && db.events[1].eventId == "bb"
  }

  /** The event that pays is of any type and status that the verification takes up. */
  lemma ReachPaid(shop: Shop, id: string, paid: string, eventType: string, status: string) returns (db: Db)
    requires ShopOk(shop) && id != paid && TakenUp(SuccessEvent(shop, paid, eventType, status))
    requires IsCapturedEvent(SuccessEvent(shop, paid, eventType, status))
    ensures Reached(db) && Recovered(db, shop, id, paid)
    ensures forall i | 0 <= i < |db.events| ::
      db.events[i].payload in {Some(FailureEvent(shop, id)), Some(SuccessEvent(shop, paid, eventType, status))}
  {
    var d0 := ReachLinkOut(shop, id);
    var d1 := Deliver(d0, shop, "bb", SuccessEvent(shop, paid, eventType, status));
    SuccessRecovers(d1, 1, shop, paid, eventType, status);
    ReachedNext(d1, Processing(1));
    db := Apply(d1, Processing(1));
  }

  lemma ReachRecovered(shop: Shop, id: string, paid: string) returns (db: Db)
    requires ShopOk(shop) && id != paid
    ensures Reached(db) && Recovered(db, shop, id, paid)
  {
    db := ReachPaid(shop, id, paid, "payment.captured", "captured");
  }
}
