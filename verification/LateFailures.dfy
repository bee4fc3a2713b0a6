/** Exactly which webhooks open a case: failures, even late ones of a payment that was captured, on a PAID order. */
module LateFailures {
  import opened Domain
  import opened Tables
  import opened Services
  import opened Runs
  import opened Interleaving
  import opened WebhookRecovery
  import opened Scenarios
  import SyncEvents

  /** The event's order is new, or has no active case; neither its own status nor its payment's plays a part. */
  predicate NoActiveCase(db: Db, m: nat, p: Payload) {
    var order := FindOrder(db.orders, m, OrderKey(p));
    order.None? || FirstActive(db.cases, m, order.value).None?
  }

  /** One case more, for the order that the event names, from the payment that it names. */
  predicate OpensCase(db: Db, after: Db, m: nat, p: Payload) {
    && |after.cases| == |db.cases| + 1 && after.cases[..|db.cases|] == db.cases
    && var c := after.cases[|db.cases|];
       && c.status == DIAGNOSING && c.merchant == m
       && FindOrder(after.orders, m, OrderKey(p)) == Some(c.order)
       && FindPayment(after.payments, m, p.externalPaymentId) == Some(c.initialPayment)
  }

  // ---- One task ----

  /** Synchronisation ends on the rows that the event's ids name. */
  lemma SyncEndsOn(db: Db, m: nat, p: Payload, read: CustomerRead)
    ensures var (synced, order, pay) := SyncAll(db, m, p, read);
      FindOrder(synced.orders, m, OrderKey(p)) == Some(order)
      && FindPayment(synced.payments, m, p.externalPaymentId) == Some(pay)
  {
    SyncAllTouches(db, m, p, read);
    SyncEvents.SyncedRows(db, m, p, read, OrderKey(p));
    SyncEvents.SyncAllMoves(db, m, p, read, m, OrderKey(p), "");
    var (db1, customer) := SyncCustomer(db, m, p, read);
    var (db2, order) := SyncOrder(db1, m, customer, p);
    FindPaymentFound(db2.payments, m, p.externalPaymentId);
    FindOrderFound(db1.orders, m, OrderKey(p));
  }

  lemma NoActiveAfterSync(db: Db, m: nat, p: Payload, read: CustomerRead)
    requires Core(db)
    ensures var (synced, order, pay) := SyncAll(db, m, p, read);
      synced.cases == db.cases && (FirstActive(synced.cases, m, order).None? <==> NoActiveCase(db, m, p))
  {
    SyncAllValid(db, m, p, read);
    SyncedOrder(db, m, p, read);
    NoCaseOfNewOrder(db, m);
    FirstActiveFound(db.cases, m, |db.orders|);
  }

  lemma CreationOpensExactly(db: Db, m: nat, order: nat, payId: nat, p: Payload, now: int, staleMiss: bool)
    requires payId < |db.payments|
    ensures var after := Ending(db, CreateOrUpdateCase(db, m, order, payId, p, now, staleMiss));
      && after.orders == db.orders && after.payments == db.payments
      && (FirstActive(db.cases, m, order).Some? ==> |after.cases| == |db.cases|)
      && (FirstActive(db.cases, m, order).None? ==>
            && |after.cases| == |db.cases| + 1 && after.cases[..|db.cases|] == db.cases
            && after.cases[|db.cases|].status == DIAGNOSING && after.cases[|db.cases|].merchant == m
            && after.cases[|db.cases|].order == order && after.cases[|db.cases|].initialPayment == payId)
  {
    FirstActiveFound(db.cases, m, order);
  }

  lemma HandlingOpensExactly(db: Db, m: nat, p: Payload, now: int, missed: Missed, freshId: string)
    requires Core(db)
    ensures var after := Ending(db, HandleEvent(db, m, p, now, missed, freshId));
      && (IsFailureEvent(p) && NoActiveCase(db, m, p) ==> OpensCase(db, after, m, p))
      && (!(IsFailureEvent(p) && NoActiveCase(db, m, p)) ==> |after.cases| == |db.cases|)
  {
    SyncAllValid(db, m, p, missed.customer);
    NoActiveAfterSync(db, m, p, missed.customer);
    SyncEndsOn(db, m, p, missed.customer);
    var (synced, order, pay) := SyncAll(db, m, p, missed.customer);
    if IsFailureEvent(p) {
      CreationOpensExactly(synced, m, order, pay, p, now, missed.active);
    } else if IsCaptureEvent(p) {
      WebhookOpensNone(synced, m, p, freshId);
    }
  }

  // ---- Every webhook ----

  /** A webhook opens a case exactly when it is a failure whose order has no active case: a PAID order, or a captured
      payment, does not stop it. */
  lemma WebhookOpensExactly(db: Db, op: Op)
    requires Core(db) && Proceeds(db, op)
    ensures var m, p := db.events[op.rawId].merchant, db.events[op.rawId].payload.value;
      && (IsFailureEvent(p) && NoActiveCase(db, m, p) ==> OpensCase(db, Apply(db, op), m, p))
      && (|Apply(db, op).cases| == |db.cases| + 1 <==> IsFailureEvent(p) && NoActiveCase(db, m, p))
  {
    var m, p := db.events[op.rawId].merchant, db.events[op.rawId].payload.value;
    HandleEventKeepsEvents(db, m, p, op.now, op.missed, op.freshId);
    HandlingOpensExactly(db, m, p, op.now, op.missed, op.freshId);
  }

  // ---- A late failure of the payment that was captured ----

  const SHOP := Shop(0, "o", "INR", "")
  const LATE := FailureEvent(SHOP, "pp")

  /** The order is PAID and the payment CAPTURED, and yet a case is open for them. */
  predicate PaidAndOpen(db: Db) {
    && OneOrder(db, SHOP) && db.orders[0].status == OrderPaid
    && |db.payments| == 2 && db.payments[1].status == PayCaptured
    && |db.cases| == 2 && OpenCase(db.cases[1], SHOP) && db.cases[1].initialPayment == 1
  }

  lemma LateSync(db: Db)
    requires RecoveredRows(db, SHOP, "p", "pp")
    ensures var (synced, order, pay) := SyncAll(db, 0, LATE, ReadsNow);
      && OneOrder(synced, SHOP) && synced.orders[0].status == OrderPaid && order == 0
      && synced.payments == db.payments && pay == 1 && synced.cases == db.cases
  {
    SyncAllValid(db, 0, LATE, ReadsNow);
    SyncKnownOrder(db, SHOP, LATE);
    FindPaymentFound(db.payments, 0, "pp");
    assert db.payments[1].externalId == "pp";
    StatusTexts();
  }

  lemma LateOpens(db: Db, rawId: nat)
    requires RecoveredRows(db, SHOP, "p", "pp") && rawId < |db.events| && !db.events[rawId].processed
    requires db.events[rawId].merchant == 0 && db.events[rawId].payload == Some(LATE)
    ensures PaidAndOpen(Apply(db, Processing(rawId)))
  {
    LateHandled(db);
    HandleEventKeepsEvents(db, 0, LATE, 0, NOTHING_MISSED, NO_ID);
  }

  lemma LateHandled(db: Db)
    requires RecoveredRows(db, SHOP, "p", "pp")
    ensures var r := HandleEvent(db, 0, LATE, 0, NOTHING_MISSED, NO_ID); r.Commit? && PaidAndOpen(r.db)
  {
    LateSync(db);
    var synced := SyncAll(db, 0, LATE, ReadsNow).0;
    FirstActiveFound(synced.cases, 0, 0);
    CreateOpens(synced, 1, SHOP, LATE);
  }

  /** The case was approved and its link created. */
  predicate LinkForPaid(db: Db) {
    && OneOrder(db, SHOP) && db.orders[0].status == OrderPaid
    && |db.payments| == 2 && db.payments[1].status == PayCaptured
    && |db.cases| == 2 && db.cases[1].status == WAITING_EXTERNAL
    && db.cases[1].order == 0 && db.cases[1].initialPayment == 1
    && exists i | 0 <= i < |db.attempts| :: LinkSentFor(db.attempts[i], 1)
  }

  lemma ReachPaidAndOpen() returns (db: Db)
    ensures Reached(db) && PaidAndOpen(db)
  {
    var d0 := ReachRecovered(SHOP, "p", "pp");
    var d1 := Deliver(d0, SHOP, "ccc", LATE);
    LateOpens(d1, 2);
    ReachedNext(d1, Processing(2));
    db := Apply(d1, Processing(2));
  }

  lemma ReachLinkForPaid() returns (db: Db)
    ensures Reached(db) && LinkForPaid(db)
  {
    var d0 := ReachPaidAndOpen();
    DecisionApproves(d0, 1, SHOP);
    ReachedNext(d0, Approving(1));
    var d1 := Apply(d0, Approving(1));
    ReachedKeyIsNew(d1, 1);
    LinkIsSent(d1, 1, SHOP);
    ReachedNext(d1, Sending(1));
    db := Apply(d1, Sending(1));
    assert LinkSentFor(db.attempts[|d1.attempts|], 1);
  }

  /** After a payment was captured and its order PAID, a late failure of that very payment opens a case for it, and the
      customer is sent a payment link for an order already paid. */
  lemma PaidOrderIsSentALink()
    ensures exists ops, c, i ::
      var db := Run(EMPTY, ops);
      && 0 <= c < |db.cases| && 0 <= i < |db.attempts| && LinkSentFor(db.attempts[i], c)
      && db.cases[c].status == WAITING_EXTERNAL
      && db.cases[c].order < |db.orders| && db.orders[db.cases[c].order].status == OrderPaid
      && db.cases[c].initialPayment < |db.payments| && db.payments[db.cases[c].initialPayment].status == PayCaptured
  {
    var db := ReachLinkForPaid();
    var ops :| Run(EMPTY, ops) == db;
    var i :| 0 <= i < |db.attempts| && LinkSentFor(db.attempts[i], 1);
    assert LinkSentFor(Run(EMPTY, ops).attempts[i], 1);
  }
}
