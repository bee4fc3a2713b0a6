/** Exactly what a webhook's task does to each case's status and to each payment's. */
module WebhookRecovery {
  import opened Domain
  import opened Tables
  import opened Services
  import opened Lifecycle
  import opened Effects
  import opened Invariants
  import opened Runs
  import opened SyncEvents
  import opened Scenarios
  import Sync = OrderPaymentSync

  // ---- What can be looked up before the task ----

  /** The case the event's payment is put to: the open case of the order the event names. */
  function CaseFor(db: Db, m: nat, p: Payload): Option<nat> {
    var order := FindOrder(db.orders, m, p.externalOrderId);
    if !TakenUp(p) || order.None? then None else FirstVerifiable(db.cases, order.value)
  }

  /** The currency its payment has: on record, or else the event's own. */
  function PaidIn(db: Db, m: nat, p: Payload): string {
    FindPaymentFound(db.payments, m, p.externalPaymentId);
    match FindPayment(db.payments, m, p.externalPaymentId)
    case None => p.currency
    case Some(i) => db.payments[i].currency
  }

  predicate Recoverable(s: CaseStatus) {
    s in {EXECUTING, WAITING_EXTERNAL, VERIFYING}
  }

  /** The event recovers case `c`: its order's open case, of a recoverable status, in its payment's currency. */
  predicate Recovers(db: Db, m: nat, p: Payload, c: nat)
    requires c < |db.cases|
  {
    CaseFor(db, m, p) == Some(c) && Recoverable(db.cases[c].status) && PaidIn(db, m, p) == db.cases[c].currency
  }

  // ---- Synchronisation changes none of it ----

  lemma SyncKeepsTarget(db: Db, m: nat, p: Payload, read: CustomerRead)
    requires OrdersOwned(db)
    ensures var synced := SyncAll(db, m, p, read).0;
      && CaseFor(synced, m, p) == CaseFor(db, m, p) && synced.cases == db.cases
      && FindPayment(synced.payments, m, p.externalPaymentId).Some? && PaidIn(synced, m, p) == PaidIn(db, m, p)
  {
    var synced := SyncAll(db, m, p, read).0;
    SyncAllValid(db, m, p, read);
    SyncAllTouches(db, m, p, read);
    SyncedRows(db, m, p, read, p.externalOrderId);
    FirstVerifiableFound(db.cases, |db.orders|);
    SyncKeepsCurrency(db, m, p, read);
  }

  lemma SyncKeepsCurrency(db: Db, m: nat, p: Payload, read: CustomerRead)
    ensures PaidIn(SyncAll(db, m, p, read).0, m, p) == PaidIn(db, m, p)
  {
    SyncAllTouches(db, m, p, read);
    SyncedRows(db, m, p, read, p.externalOrderId);
    FindPaymentFound(db.payments, m, p.externalPaymentId);
  }

  // ---- Verification on the synchronised rows ----

  lemma VerifyMovesCase(db: Db, caseId: nat, payId: nat, ref: string, c: nat)
    requires caseId < |db.cases| && payId < |db.payments| && c < |db.cases|
    ensures var after := VerifyAndRecover(db, caseId, payId, ref).0;
      && |after.cases| == |db.cases| && after.payments == db.payments
      && after.cases[c].status ==
           if c == caseId && Recoverable(db.cases[c].status) && SettlementValid(db.cases[c], db.payments[payId])
           then RECOVERED else db.cases[c].status
  {
    VerifyEffect(db, caseId, payId, ref);
    RecoverStatus(db.cases[caseId], db.payments[payId].amount);
  }

  lemma WebhookMovesCase(db: Db, m: nat, p: Payload, freshId: string, c: nat)
    requires c < |db.cases| && TakenUp(p) && FindPayment(db.payments, m, p.externalPaymentId).Some?
    ensures var r := VerifyFromWebhook(db, m, p, freshId);
      r.Commit? ==>
        && |r.db.cases| == |db.cases|
        && r.db.cases[c].status == if Recovers(db, m, p, c) then RECOVERED else db.cases[c].status
  {
    FindOrderFound(db.orders, m, p.externalOrderId);
    FindPaymentFound(db.payments, m, p.externalPaymentId);
    var target := CaseFor(db, m, p);
    if target.Some? {
      var order := FindOrder(db.orders, m, p.externalOrderId).value;
      FirstVerifiableFound(db.cases, order);
      SettlingPaymentValid(db, m, order, p, freshId);
      var (paid, payId) := SettlingPayment(db, m, order, p, freshId);
      VerifyMovesCase(paid, target.value, payId, p.linkId, c);
    }
  }

  lemma WebhookMovesPayment(db: Db, m: nat, p: Payload, freshId: string, m': nat, id: string)
    requires TakenUp(p) && FindPayment(db.payments, m, p.externalPaymentId).Some?
    ensures var r := VerifyFromWebhook(db, m, p, freshId);
      r.Commit? ==>
        PaymentStatusOf(r.db, m', id) ==
          if m' == m && id == p.externalPaymentId && CaseFor(db, m, p).Some? then Some(PayCaptured)
          else PaymentStatusOf(db, m', id)
  {
    FindOrderFound(db.orders, m, p.externalOrderId);
    FindPaymentFound(db.payments, m, p.externalPaymentId);
    FindPaymentFound(db.payments, m', id);
    var target := CaseFor(db, m, p);
    if target.Some? {
      var order := FindOrder(db.orders, m, p.externalOrderId).value;
      FirstVerifiableFound(db.cases, order);
      SettlingPaymentValid(db, m, order, p, freshId);
      var (paid, payId) := SettlingPayment(db, m, order, p, freshId);
      FindPaymentStable(db.payments, payId, paid.payments[payId], m', id);
      VerifyMovesCase(paid, target.value, payId, p.linkId, target.value);
    }
  }

  // ---- The whole task ----

  lemma CreationMoves(db: Db, m: nat, order: nat, payId: nat, p: Payload, now: int, staleMiss: bool)
    requires payId < |db.payments|
    ensures var r := CreateOrUpdateCase(db, m, order, payId, p, now, staleMiss);
      r.Commit? ==>
        && r.db.payments == db.payments && r.db.orders == db.orders && |db.cases| <= |r.db.cases|
        && (forall i | 0 <= i < |db.cases| :: r.db.cases[i].status == db.cases[i].status)
        && forall i | |db.cases| <= i < |r.db.cases| ::
             r.db.cases[i].status == DIAGNOSING && r.db.cases[i].attemptCount == 0
  {
    FirstActiveFound(db.cases, m, order);
  }

  /** An event's task moves no case but the one it recovers, and opens new ones as DIAGNOSING. */
  lemma HandlingMovesCase(db: Db, m: nat, p: Payload, now: int, missed: Missed, freshId: string, c: nat)
    requires Core(db) && c < |db.cases|
    ensures var r := HandleEvent(db, m, p, now, missed, freshId);
      r.Commit? ==>
        && |db.cases| <= |r.db.cases|
        && r.db.cases[c].status == if Recovers(db, m, p, c) then RECOVERED else db.cases[c].status
  {
    SyncAllValid(db, m, p, missed.customer);
    SyncKeepsTarget(db, m, p, missed.customer);
    var (synced, order, pay) := SyncAll(db, m, p, missed.customer);
    if IsFailureEvent(p) {
      CreationMoves(synced, m, order, pay, p, now, missed.active);
    } else if IsCaptureEvent(p) {
      WebhookMovesCase(synced, m, p, freshId, c);
    }
  }

  lemma HandlingOpens(db: Db, m: nat, p: Payload, now: int, missed: Missed, freshId: string)
    requires Core(db)
    ensures var r := HandleEvent(db, m, p, now, missed, freshId);
      r.Commit? ==>
        && |db.cases| <= |r.db.cases|
        && forall i | |db.cases| <= i < |r.db.cases| ::
             r.db.cases[i].status == DIAGNOSING && r.db.cases[i].attemptCount == 0
  {
    SyncAllValid(db, m, p, missed.customer);
    SyncKeepsTarget(db, m, p, missed.customer);
    var (synced, order, pay) := SyncAll(db, m, p, missed.customer);
    if IsFailureEvent(p) {
      CreationMoves(synced, m, order, pay, p, now, missed.active);
    } else if IsCaptureEvent(p) {
      WebhookOpensNone(synced, m, p, freshId);
    }
  }

  lemma WebhookOpensNone(db: Db, m: nat, p: Payload, freshId: string)
    ensures var r := VerifyFromWebhook(db, m, p, freshId); r.Commit? ==> |r.db.cases| == |db.cases|
  {
    FindOrderFound(db.orders, m, p.externalOrderId);
    var order := FindOrder(db.orders, m, p.externalOrderId);
    if order.Some? {
      FirstVerifiableFound(db.cases, order.value);
      SettlingPaymentValid(db, m, order.value, p, freshId);
    }
  }

  /** An event's task moves the payment it is about by the guarded rule, and then to CAPTURED when there is an open
      case to put it to, whatever the event reported; it moves no other payment. */
  lemma HandlingMovesPayment(
    db: Db, m: nat, p: Payload, now: int, missed: Missed, freshId: string, m': nat, id: string)
    requires Core(db)
    ensures var r := HandleEvent(db, m, p, now, missed, freshId);
      r.Commit? ==>
        PaymentStatusOf(r.db, m', id) ==
          if m' != m || id != p.externalPaymentId then PaymentStatusOf(db, m', id)
          else if CaseFor(db, m, p).Some? then Some(PayCaptured)
          else Some(Sync.NextPaymentStatus(PaymentStatusOf(db, m, id), MappedStatus(p.status)))
  {
    SyncAllValid(db, m, p, missed.customer);
    SyncKeepsTarget(db, m, p, missed.customer);
    SyncAllMoves(db, m, p, missed.customer, m', "", id);
    var (synced, order, pay) := SyncAll(db, m, p, missed.customer);
    if IsFailureEvent(p) {
      CreationMoves(synced, m, order, pay, p, now, missed.active);
    } else if IsCaptureEvent(p) {
      WebhookMovesPayment(synced, m, p, freshId, m', id);
    }
  }

  /** And it moves orders only by synchronising them. */
  lemma HandlingMovesOrder(
    db: Db, m: nat, p: Payload, now: int, missed: Missed, freshId: string, m': nat, key: string)
    requires Core(db)
    ensures var r := HandleEvent(db, m, p, now, missed, freshId);
      r.Commit? ==> OrderStatusOf(r.db, m', key) == OrderStatusOf(SyncAll(db, m, p, missed.customer).0, m', key)
  {
    SyncAllValid(db, m, p, missed.customer);
    var (synced, order, pay) := SyncAll(db, m, p, missed.customer);
    if IsFailureEvent(p) {
      CreationMoves(synced, m, order, pay, p, now, missed.active);
    } else if IsCaptureEvent(p) {
      WebhookKeepsOrders(synced, m, p, freshId);
    }
  }

  lemma WebhookKeepsOrders(db: Db, m: nat, p: Payload, freshId: string)
    ensures var r := VerifyFromWebhook(db, m, p, freshId); r.Commit? ==> r.db.orders == db.orders
  {
    FindOrderFound(db.orders, m, p.externalOrderId);
    var order := FindOrder(db.orders, m, p.externalOrderId);
    if order.Some? {
      FirstVerifiableFound(db.cases, order.value);
      SettlingPaymentValid(db, m, order.value, p, freshId);
      FindPaymentFound(db.payments, m, p.externalPaymentId);
    }
  }

  // ---- Which webhooks recover which case ----

  predicate RecoversByOp(db: Db, op: Op, c: nat)
    requires c < |db.cases|
  {
    Proceeds(db, op) && Recovers(db, db.events[op.rawId].merchant, db.events[op.rawId].payload.value, c)
  }

  /** A webhook recovers a case exactly when it is a success event naming the order whose open case this is, the case
      is being executed, waits or is being verified, and the payment is in its currency. The status that the event
      reports plays no part, and nothing else makes a webhook recover a case. */
  lemma WebhookRecoversExactly(db: Db, op: Op, c: nat)
    requires Core(db) && op.Process? && c < |db.cases| && db.cases[c].status != RECOVERED
    ensures c < |Apply(db, op).cases|
    ensures Apply(db, op).cases[c].status == RECOVERED <==> RecoversByOp(db, op, c)
  {
    if Proceeds(db, op) {
      var m, p := db.events[op.rawId].merchant, db.events[op.rawId].payload.value;
      HandlingMovesCase(db, m, p, op.now, op.missed, op.freshId, c);
      if TakenUp(p) { TakenUpCommits(db, m, p, op.now, op.missed, op.freshId); }
    }
  }

  // ---- Recovery that no event reported ----

  predicate ReportsCapture(p: Payload) {
    Lower(p.status) == "captured"
  }

  predicate PaysByType(p: Payload) {
    p.eventType in {"payment.captured", "payment_link.paid", "order.paid"} && p.status != "failed"
  }

  lemma TakenUpUnreported(p: Payload)
    ensures TakenUp(p) && !ReportsCapture(p) <==> PaysByType(p) && !ReportsCapture(p)
  {
    assert Lower("captured") == "captured";
  }

  /** A webhook that reports no captured payment recovers a case exactly when it meets the same condition and is taken
      up for its event type. */
  lemma UnreportedRecoveryExactly(db: Db, op: Op, c: nat)
    requires Core(db) && Proceeds(db, op) && c < |db.cases| && db.cases[c].status != RECOVERED
    ensures c < |Apply(db, op).cases|
    ensures var p := db.events[op.rawId].payload.value;
      Apply(db, op).cases[c].status == RECOVERED && !ReportsCapture(p) <==>
        PaysByType(p) && !ReportsCapture(p) && Recovers(db, db.events[op.rawId].merchant, p, c)
  {
    WebhookRecoversExactly(db, op, c);
    TakenUpUnreported(db.events[op.rawId].payload.value);
  }

  const SHOP := Shop(0, "o", "INR", "")

  /** No stored event reports a captured payment. */
  predicate NothingReportedCaptured(db: Db) {
    forall i | 0 <= i < |db.events| ::
      db.events[i].payload.Some? && MappedStatus(db.events[i].payload.value.status) != PayCaptured
  }

  lemma ReachUnreported() returns (db: Db)
    ensures Reached(db) && NothingReportedCaptured(db) && |db.cases| == 1 && db.cases[0].status == RECOVERED
  {
    StatusTexts();
    db := ReachPaid(SHOP, "p", "pp", "order.paid", "authorized");
  }

  /** A case recovers on an order.paid event whose payment is only authorized, though no event ever reported a
      captured payment. */
  lemma RecoveredWithoutReportedCapture()
    ensures exists ops ::
      var db := Run(EMPTY, ops);
      NothingReportedCaptured(db) && exists c | 0 <= c < |db.cases| :: db.cases[c].status == RECOVERED
  {
    var db := ReachUnreported();
    var ops :| Run(EMPTY, ops) == db;
    assert db.cases[0].status == RECOVERED && NothingReportedCaptured(Run(EMPTY, ops));
  }
}
