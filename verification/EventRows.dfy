/** What an event writes about its own row, its customer, its order and its payment, row by row. */
module EventRows {
  import opened Domain
  import opened Tables
  import opened Services
  import opened Runs
  import opened WebhookRecovery
  import opened Settlements

  // ---- The stored event ----

  /** A delivery stores the event as it came, unprocessed, exactly when none of its id is stored yet. */
  lemma DeliveryWritesExactly(db: Db, op: Op)
    requires op.Ingest?
    ensures Apply(db, op) ==
      if exists i | 0 <= i < |db.events| :: db.events[i].merchant == op.merchant && db.events[i].eventId == op.eventId
      then db
      else db.(events := db.events + [RawEvent(op.merchant, op.eventId, op.payload, false)])
  {
    FindEventFound(db.events, op.merchant, op.eventId);
  }

  /** A task whose event is missing, processed or in conflict changes nothing; one that cannot be parsed is only marked;
      and any other is marked whenever anything else changes. */
  lemma TaskMarksItsEvent(db: Db, op: Op)
    requires op.Process?
    ensures var after := Apply(db, op);
      if Proceeds(db, op) then
        after == db || (
          && op.rawId < |after.events|
          && after.events == db.events[op.rawId := db.events[op.rawId].(processed := true)])
      else if op.rawId < |db.events| && !db.events[op.rawId].processed && db.events[op.rawId].payload.None? then
        after == db.(events := db.events[op.rawId := db.events[op.rawId].(processed := true)])
      else after == db
    ensures var r := ProcessRawWebhook(db, op.rawId, op.now, op.missed, op.freshId);
      r.Commit? ==>
        && (r.value == NotFound <==> op.rawId >= |db.events|)
        && (r.value == AlreadyProcessed <==> op.rawId < |db.events| && db.events[op.rawId].processed)
        && (r.value == Success <==> Proceeds(db, op))
  {
    if Proceeds(db, op) {
      var m, p := db.events[op.rawId].merchant, db.events[op.rawId].payload.value;
      HandleEventKeepsEvents(db, m, p, op.now, op.missed, op.freshId);
    }
  }

  // ---- The customer ----

  /** Adds the failure and, where the name read was the placeholder, the event's name. */
  predicate CustomerUpdated(u: Customer, u': Customer, p: Payload, totalRead: nat, nameRead: string) {
    u' == u.(
      totalFailures := if p.status == "failed" then totalRead + 1 else u.totalFailures,
      credits := if p.status == "failed" then u.credits + 1 else u.credits,
      name := if p.name != "" && nameRead == "Customer" then p.name else u.name)
  }

  predicate CustomerAdded(a: seq<Customer>, b: seq<Customer>, m: nat, p: Payload) {
    var failures := if p.status == "failed" then 1 else 0;
    b == a + [Customer(m, p.email, p.phone, if p.name == "" then "Customer" else p.name, failures, failures)]
  }

  /** Row `id` is the first of the merchant with the event's email or phone. */
  predicate FirstContact(customers: seq<Customer>, m: nat, p: Payload, id: nat) {
    && id < |customers| && Contact(customers[id], m, p)
    && forall j | 0 <= j < id :: !Contact(customers[j], m, p)
  }

  predicate Contact(u: Customer, m: nat, p: Payload) {
    u.merchant == m && ((p.email != "" && p.email == u.email) || (p.phone != "" && p.phone == u.phone))
  }

  /** The customer an event names by email or phone: looked up now, or as it was read earlier. */
  predicate CustomerWritten(
    a: seq<Customer>, b: seq<Customer>, m: nat, p: Payload, read: CustomerRead, id: Option<nat>)
  {
    if p.email == "" && p.phone == "" then b == a && id.None?
    else
      && id.Some?
      && match read
         case SawNoCustomer => id.value == |a| && CustomerAdded(a, b, m, p)
         case SawCustomer(row, total, name) =>
           if row < |a| then
             id.value == row && |b| == |a| && b == a[row := b[row]] && CustomerUpdated(a[row], b[row], p, total, name)
           else id.value == |a| && CustomerAdded(a, b, m, p)
         case ReadsNow =>
           if id.value < |a| then
             && FirstContact(a, m, p, id.value) && |b| == |a| && b == a[id.value := b[id.value]]
             && CustomerUpdated(a[id.value], b[id.value], p, a[id.value].totalFailures, a[id.value].name)
           else
             && id.value == |a| && CustomerAdded(a, b, m, p)
             && forall j | 0 <= j < |a| :: !Contact(a[j], m, p)
  }

  lemma CustomerWrittenExactly(db: Db, m: nat, p: Payload, read: CustomerRead)
    ensures var (after, id) := SyncCustomer(db, m, p, read);
      CustomerWritten(db.customers, after.customers, m, p, read, id) && after == db.(customers := after.customers)
  {
    FindCustomerFound(db.customers, m, p.email, p.phone);
    assert forall u: Customer :: SharesContact(u, m, p.email, p.phone) <==> Contact(u, m, p);
  }

  // ---- The order ----

  predicate Pays(p: Payload) {
    && (p.status == "captured" || p.status == "authorized")
    && p.eventType in {"payment.captured", "payment.authorized", "order.paid"}
  }

  /** The event's order id, or one made up from the payment's. */
  function OrderIdOf(p: Payload): string {
    if p.externalOrderId == "" then "order_synth_" + p.externalPaymentId else p.externalOrderId
  }

  predicate FirstOrder(orders: seq<Order>, m: nat, key: string, i: nat) {
    && i < |orders| && orders[i].merchant == m && orders[i].externalId == key
    && forall j | 0 <= j < i :: !(orders[j].merchant == m && orders[j].externalId == key)
  }

  /** A PAID order stays as it is; another is PAID by a paying event and ATTEMPTED by any other, and gets the customer
      if it has none; an unknown one is added with the event's amount and currency. */
  predicate OrderWritten(a: seq<Order>, b: seq<Order>, m: nat, p: Payload, customer: Option<nat>, i: nat) {
    var status := if Pays(p) then OrderPaid else OrderAttempted;
    if i < |a| then
      && FirstOrder(a, m, OrderIdOf(p), i)
      && if a[i].status == OrderPaid then b == a
         else b == a[i := a[i].(
           status := status, customer := if a[i].customer.Some? then a[i].customer else customer)]
    else
      && i == |a| && b == a + [Order(m, customer, OrderIdOf(p), p.amount, p.currency, status)]
      && forall j | 0 <= j < |a| :: !(a[j].merchant == m && a[j].externalId == OrderIdOf(p))
  }

  lemma OrderWrittenExactly(db: Db, m: nat, customer: Option<nat>, p: Payload)
    ensures var (after, i) := SyncOrder(db, m, customer, p);
      OrderWritten(db.orders, after.orders, m, p, customer, i) && after == db.(orders := after.orders)
  {
    FindOrderFound(db.orders, m, OrderKey(p));
  }

  // ---- The payment ----

  /** The same letters, capital or small. */
  predicate SameText(s: string, small: string) {
    |s| == |small| && forall i | 0 <= i < |s| ::
      s[i] == small[i] || ('a' <= small[i] <= 'z' && s[i] as int == small[i] as int - 32)
  }

  /** The status that an event's text reports; a text that is none of the four reports a failure. */
  predicate Reports(text: string, s: PaymentStatus) {
    && (s == PayCaptured <==> SameText(text, "captured"))
    && (s == PayAuthorized <==> SameText(text, "authorized"))
    && (s == PayRefunded <==> SameText(text, "refunded"))
    && s in {PayCaptured, PayAuthorized, PayRefunded, PayFailed}
  }

  lemma LowerIsSameText(s: string, small: string)
    requires forall i | 0 <= i < |small| :: 'a' <= small[i] <= 'z'
    ensures Lower(s) == small <==> SameText(s, small)
  {
    if Lower(s) == small {
      forall i | 0 <= i < |s|
        ensures s[i] == small[i] || ('a' <= small[i] <= 'z' && s[i] as int == small[i] as int - 32)
      {
        assert Lower(s)[i] == LowerChar(s[i]);
      }
    }
    if SameText(s, small) {
      forall i | 0 <= i < |s| ensures Lower(s)[i] == small[i] {
        assert 'a' <= small[i] <= 'z';
      }
    }
  }

  lemma MappedStatusReports(text: string)
    ensures Reports(text, MappedStatus(text))
  {
    LowerIsSameText(text, "captured");
    LowerIsSameText(text, "authorized");
    LowerIsSameText(text, "refunded");
  }

  predicate FirstPayment(payments: seq<Payment>, m: nat, id: string, i: nat) {
    && i < |payments| && payments[i].merchant == m && payments[i].externalId == id
    && forall j | 0 <= j < i :: !(payments[j].merchant == m && payments[j].externalId == id)
  }

  /** A payment on record takes the reported status, except that CAPTURED does not fall back to FAILED; an unknown one
      is added for the order, with the event's amount and currency. */
  predicate PaymentWritten(a: seq<Payment>, b: seq<Payment>, m: nat, p: Payload, order: nat, i: nat) {
    && i < |b| && |a| <= |b|
    && if i < |a| then
         && FirstPayment(a, m, p.externalPaymentId, i) && b == a[i := a[i].(status := b[i].status)]
         && if a[i].status == PayCaptured && Reports(p.status, PayFailed) then b[i].status == PayCaptured
            else Reports(p.status, b[i].status)
       else
         && i == |a| && Reports(p.status, b[i].status)
         && b == a + [Payment(m, order, p.externalPaymentId, p.amount, p.currency, b[i].status)]
         && forall j | 0 <= j < |a| :: !(a[j].merchant == m && a[j].externalId == p.externalPaymentId)
  }

  lemma PaymentWrittenExactly(db: Db, m: nat, order: nat, p: Payload)
    ensures var (after, i) := SyncPayment(db, m, order, p);
      PaymentWritten(db.payments, after.payments, m, p, order, i) && after == db.(payments := after.payments)
  {
    FindPaymentFound(db.payments, m, p.externalPaymentId);
    MappedStatusReports(p.status);
  }

  // ---- The whole event ----

  /** The three rows of an event, each pointing to the one before. */
  ghost predicate RowsWritten(
    db: Db, customers: seq<Customer>, orders: seq<Order>, payments: seq<Payment>, m: nat, p: Payload,
    read: CustomerRead, pay: nat)
  {
    exists customer: Option<nat>, order: nat ::
      && CustomerWritten(db.customers, customers, m, p, read, customer)
      && OrderWritten(db.orders, orders, m, p, customer, order)
      && PaymentWritten(db.payments, payments, m, p, order, pay)
  }

  lemma SyncWritesExactly(db: Db, m: nat, p: Payload, read: CustomerRead)
    ensures var (after, order, pay) := SyncAll(db, m, p, read);
      && RowsWritten(db, after.customers, after.orders, after.payments, m, p, read, pay)
      && after == db.(customers := after.customers, orders := after.orders, payments := after.payments)
  {
    CustomerWrittenExactly(db, m, p, read);
    var (db1, customer) := SyncCustomer(db, m, p, read);
    OrderWrittenExactly(db1, m, customer, p);
    var (db2, order) := SyncOrder(db1, m, customer, p);
    PaymentWrittenExactly(db2, m, order, p);
    var (after, o, pay) := SyncAll(db, m, p, read);
    assert CustomerWritten(db.customers, after.customers, m, p, read, customer)
        && OrderWritten(db.orders, after.orders, m, p, customer, order)
        && PaymentWritten(db.payments, after.payments, m, p, order, pay);
  }

  /** The event is put to an open case, which captures its payment. */
  ghost predicate PutToSome(db: Db, m: nat, p: Payload) {
    exists c :: PutTo(db, m, p, c)
  }

  lemma HandlingWritesRows(db: Db, m: nat, p: Payload, now: int, missed: Missed, freshId: string)
    requires Core(db)
    ensures var (synced, order, pay) := SyncAll(db, m, p, missed.customer);
      var r := HandleEvent(db, m, p, now, missed, freshId);
      r.Commit? ==>
        && r.db.customers == synced.customers && r.db.orders == synced.orders && pay < |synced.payments|
        && r.db.payments ==
             if PutToSome(db, m, p) then synced.payments[pay := synced.payments[pay].(status := PayCaptured)]
             else synced.payments
  {
    var (synced, order, pay) := SyncAll(db, m, p, missed.customer);
    SyncAllValid(db, m, p, missed.customer);
    SyncKeepsTarget(db, m, p, missed.customer);
    SyncKeepsAmount(db, m, p, missed.customer);
    SyncKeepsOwners(db, m, p, missed.customer);
    PutToCaseFor(db, m, p);
    if IsFailureEvent(p) {
      CreationMoves(synced, m, order, pay, p, now, missed.active);
      FirstActiveFound(synced.cases, m, order);
    } else if IsCaptureEvent(p) {
      VerifyingWritesRows(synced, m, p, freshId);
      PaymentWrittenAt(db, m, p, missed.customer);
    }
  }

  lemma PutToCaseFor(db: Db, m: nat, p: Payload)
    requires Core(db)
    ensures PutToSome(db, m, p) <==> CaseFor(db, m, p).Some?
  {
    var target := CaseFor(db, m, p);
    if target.Some? { PutToExactly(db, m, p, target.value); }
    if c :| PutTo(db, m, p, c) { PutToExactly(db, m, p, c); }
  }

  lemma PaymentWrittenAt(db: Db, m: nat, p: Payload, read: CustomerRead)
    ensures SyncAll(db, m, p, read).2 == PaidRow(db, m, p)
  {
    SyncAllTouches(db, m, p, read);
  }

  lemma VerifyingWritesRows(db: Db, m: nat, p: Payload, freshId: string)
    requires TakenUp(p) && FindPayment(db.payments, m, p.externalPaymentId).Some?
    ensures var r := VerifyFromWebhook(db, m, p, freshId);
      var i := FindPayment(db.payments, m, p.externalPaymentId).value;
      r.Commit? ==>
        && i < |db.payments| && r.db.customers == db.customers && r.db.orders == db.orders
        && r.db.payments ==
             if CaseFor(db, m, p).Some? then db.payments[i := db.payments[i].(status := PayCaptured)] else db.payments
  {
    FindOrderFound(db.orders, m, p.externalOrderId);
    FindPaymentFound(db.payments, m, p.externalPaymentId);
    var order := FindOrder(db.orders, m, p.externalOrderId);
    if order.Some? {
      FirstVerifiableFound(db.cases, order.value);
      SettlingPaymentValid(db, m, order.value, p, freshId);
    }
  }

  /** A task that takes effect writes its customer, its order and its payment as above, and the payment is captured
      besides exactly when the event is put to an open case; it writes no other row of the three tables. */
  lemma TaskWritesRowsExactly(db: Db, op: Op)
    requires Core(db) && Proceeds(db, op) && Apply(db, op) != db
    ensures var m, p := db.events[op.rawId].merchant, db.events[op.rawId].payload.value;
      var after := Apply(db, op);
      exists payments: seq<Payment>, pay: nat ::
        && RowsWritten(db, after.customers, after.orders, payments, m, p, op.missed.customer, pay)
        && pay < |payments|
        && after.payments ==
             if PutToSome(db, m, p) then payments[pay := payments[pay].(status := PayCaptured)] else payments
  {
    var m, p := db.events[op.rawId].merchant, db.events[op.rawId].payload.value;
    HandleEventKeepsEvents(db, m, p, op.now, op.missed, op.freshId);
    HandlingWritesRows(db, m, p, op.now, op.missed, op.freshId);
    SyncWritesExactly(db, m, p, op.missed.customer);
    var (synced, order, pay) := SyncAll(db, m, p, op.missed.customer);
    assert RowsWritten(db, synced.customers, synced.orders, synced.payments, m, p, op.missed.customer, pay);
  }
}
