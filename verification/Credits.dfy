/** How often one captured payment is credited: the exact step that credits it twice, and a run that takes it. */
module Credits {
  import opened Domain
  import opened Tables
  import opened Services
  import opened Lifecycle
  import opened Effects
  import opened Invariants
  import opened Runs
  import opened Histories
  import SyncEvents

  /** No payment settles two outcomes. */
  predicate OneCreditPerPayment(outcomes: seq<Outcome>) {
    forall i, j | 0 <= i < j < |outcomes| :: outcomes[i].settlingPayment != outcomes[j].settlingPayment
  }

  /** The payment already settles the outcome of a case other than this one. */
  predicate CreditedElsewhere(outcomes: seq<Outcome>, payId: nat, caseId: nat) {
    exists k | 0 <= k < |outcomes| :: outcomes[k].settlingPayment == payId && outcomes[k].caseId != caseId
  }

  /** What can be looked up before a webhook is processed: it reports a capture, its payment is on record in the
      currency of the order's open case, and that payment was credited to another case before. */
  predicate CreditsAgain(db: Db, op: Op) {
    && Proceeds(db, op)
    && var m, p := db.events[op.rawId].merchant, db.events[op.rawId].payload.value;
       TakenUp(p) && EventCreditsAgain(db, m, p)
  }

  predicate EventCreditsAgain(db: Db, m: nat, p: Payload) {
    FindPaymentFound(db.payments, m, p.externalPaymentId);
    var order := FindOrder(db.orders, m, p.externalOrderId);
    var payId := FindPayment(db.payments, m, p.externalPaymentId);
    && order.Some? && payId.Some? && FirstVerifiable(db.cases, order.value).Some?
    && var c := FirstVerifiable(db.cases, order.value).value;
       && c < |db.cases| && db.payments[payId.value].currency == db.cases[c].currency
       && CreditedElsewhere(db.outcomes, payId.value, c)
  }

  // ---- One step ----

  /** A settlement keeps one credit per payment exactly when its payment was not credited to another case. */
  lemma SettlementCreditsOnceExactly(a: Db, b: Db, caseId: nat, payId: nat)
    requires caseId < |a.cases| && payId < |a.payments| && Settled(a, b, caseId, payId)
    requires OneOutcomePerCase(a.outcomes) && OneCreditPerPayment(a.outcomes)
    ensures OneCreditPerPayment(b.outcomes) <==> !CreditedElsewhere(a.outcomes, payId, caseId)
  {
    FindOutcomeFound(a.outcomes, caseId);
    var existing := FindOutcome(a.outcomes, caseId);
    var at := if existing.Some? then existing.value else |a.outcomes|;
    assert b.outcomes[at].settlingPayment == payId;
    if CreditedElsewhere(a.outcomes, payId, caseId) {
      var k :| 0 <= k < |a.outcomes| && a.outcomes[k].settlingPayment == payId && a.outcomes[k].caseId != caseId;
      assert b.outcomes[k] == a.outcomes[k] && k != at;
    }
  }

  lemma VerifyCreditsOnceExactly(db: Db, caseId: nat, payId: nat, ref: string)
    requires caseId < |db.cases| && payId < |db.payments|
    requires OneOutcomePerCase(db.outcomes) && OneCreditPerPayment(db.outcomes)
    ensures OneCreditPerPayment(VerifyAndRecover(db, caseId, payId, ref).0.outcomes) <==>
      !(db.cases[caseId].status != RECOVERED && SettlementValid(db.cases[caseId], db.payments[payId])
        && CreditedElsewhere(db.outcomes, payId, caseId))
  {
    VerifyEffect(db, caseId, payId, ref);
    var (db', verified) := VerifyAndRecover(db, caseId, payId, ref);
    if db.cases[caseId].status != RECOVERED && verified {
      SettlementCreditsOnceExactly(db, db', caseId, payId);
    }
  }

  /** Payments on record settle outcomes; a new row settles none. */
  predicate KnownPayments(db: Db) {
    forall k | 0 <= k < |db.outcomes| :: db.outcomes[k].settlingPayment < |db.payments|
  }

  lemma MoneyKnows(db: Db)
    requires Money(db)
    ensures KnownPayments(db) && OneOutcomePerCase(db.outcomes)
  {
    forall k | 0 <= k < |db.outcomes| ensures db.outcomes[k].settlingPayment < |db.payments| {
      assert OutcomeOk(db, db.outcomes[k]);
    }
  }

  // ---- Processing a webhook ----

  lemma WebhookCreditsOnceExactly(db: Db, m: nat, p: Payload, freshId: string)
    requires OneOutcomePerCase(db.outcomes) && OneCreditPerPayment(db.outcomes)
    requires IsCaptureEvent(p) && FindPayment(db.payments, m, p.externalPaymentId).Some?
    ensures var r := VerifyFromWebhook(db, m, p, freshId);
      r.Commit? ==> (OneCreditPerPayment(r.db.outcomes) <==> !EventCreditsAgain(db, m, p))
  {
    FindOrderFound(db.orders, m, p.externalOrderId);
    FindPaymentFound(db.payments, m, p.externalPaymentId);
    var order := FindOrder(db.orders, m, p.externalOrderId);
    if order.Some? {
      FirstVerifiableFound(db.cases, order.value);
      SettlingPaymentValid(db, m, order.value, p, freshId);
      var c := FirstVerifiable(db.cases, order.value);
      if c.Some? {
        var (paid, payId) := SettlingPayment(db, m, order.value, p, freshId);
        VerifyCreditsOnceExactly(paid, c.value, payId, p.linkId);
      }
    }
  }

  /** Synchronisation does not change whether the event credits again. */
  lemma SyncKeepsVerdict(db: Db, m: nat, p: Payload, read: CustomerRead)
    requires OrdersOwned(db) && KnownPayments(db)
    ensures EventCreditsAgain(SyncAll(db, m, p, read).0, m, p) <==> EventCreditsAgain(db, m, p)
  {
    var synced := SyncAll(db, m, p, read).0;
    SyncAllValid(db, m, p, read);
    SyncAllEffect(db, m, p, read);
    SyncEvents.SyncedRows(db, m, p, read, p.externalOrderId);
    FindPaymentFound(db.payments, m, p.externalPaymentId);
    FirstVerifiableFound(db.cases, |db.orders|);
    forall i | 0 <= i < |db.payments| ensures synced.payments[i].currency == db.payments[i].currency {
      assert PaymentsEvolve(db.payments, synced.payments);
    }
  }

  lemma HandlingCreditsOnceExactly(db: Db, m: nat, p: Payload, now: int, missed: Missed, freshId: string)
    requires OrdersOwned(db) && Money(db) && OneCreditPerPayment(db.outcomes)
    ensures var r := HandleEvent(db, m, p, now, missed, freshId);
      r.Commit? ==>
        (OneCreditPerPayment(r.db.outcomes)
         <==> !(TakenUp(p) && EventCreditsAgain(db, m, p)))
  {
    SyncAllValid(db, m, p, missed.customer);
    MoneyKnows(db);
    var (synced, order, pay) := SyncAll(db, m, p, missed.customer);
    if IsFailureEvent(p) {
      CreateKeepsOutcomes(synced, m, order, pay, p, now, missed.active);
    } else if IsCaptureEvent(p) {
      SyncKeepsVerdict(db, m, p, missed.customer);
      SyncEvents.SyncedRows(db, m, p, missed.customer, p.externalOrderId);
      WebhookCreditsOnceExactly(synced, m, p, freshId);
    }
  }

  lemma CreateKeepsOutcomes(db: Db, m: nat, order: nat, payId: nat, p: Payload, now: int, staleMiss: bool)
    requires payId < |db.payments|
    ensures var r := CreateOrUpdateCase(db, m, order, payId, p, now, staleMiss);
      r.Commit? ==> r.db.outcomes == db.outcomes
  {
  }

  lemma ProcessCreditsOnceExactly(db: Db, op: Op)
    requires Core(db) && OneCreditPerPayment(db.outcomes) && op.Process?
    ensures OneCreditPerPayment(Apply(db, op).outcomes) || CreditsAgain(db, op)
    ensures CreditsAgain(db, op) ==> !OneCreditPerPayment(Apply(db, op).outcomes)
  {
    if op.rawId < |db.events| && !db.events[op.rawId].processed && db.events[op.rawId].payload.Some? {
      var m, p := db.events[op.rawId].merchant, db.events[op.rawId].payload.value;
      HandlingCreditsOnceExactly(db, m, p, op.now, op.missed, op.freshId);
      SyncAllEffect(db, m, p, op.missed.customer);
      if TakenUp(p) {
        TakenUpCommits(db, m, p, op.now, op.missed, op.freshId);
      }
    }
  }

  // ---- Every step, every run ----

  lemma PollCreditsOnce(db: Db, c: nat, merchantExists: bool, linkPaid: bool, freshId: string)
    requires Money(db) && OneCreditPerPayment(db.outcomes)
    ensures var r := PollAndReconcile(db, c, merchantExists, linkPaid, freshId);
      r.Commit? ==> OneCreditPerPayment(r.db.outcomes)
  {
    MoneyKnows(db);
    PollEffect(db, c, merchantExists, linkPaid, freshId);
    var r := PollAndReconcile(db, c, merchantExists, linkPaid, freshId);
    if r.Commit? && r.db != db {
      var paid: Db, ref: string :| PaidAndVerified(db, paid, c, ref, r.db);
      VerifyCreditsOnceExactly(paid, c, |db.payments|, ref);
    }
  }

  /** A step breaks one credit per payment exactly when it is a webhook that credits again. */
  lemma StepCreditsOnceExactly(db: Db, op: Op)
    requires Core(db) && OneCreditPerPayment(db.outcomes)
    ensures OneCreditPerPayment(Apply(db, op).outcomes) <==> !CreditsAgain(db, op)
  {
    if op.Process? {
      ProcessCreditsOnceExactly(db, op);
    } else if op.Poll? {
      PollCreditsOnce(db, op.caseId, op.merchantExists, op.linkPaid, op.freshId);
    } else if !op.Ingest? {
      OtherOpsAreQuiet(db, op);
    }
  }

  predicate NeverCreditsAgain(db: Db, ops: seq<Op>)
    decreases |ops|
  {
    ops == [] || (!CreditsAgain(db, ops[0]) && NeverCreditsAgain(Apply(db, ops[0]), ops[1..]))
  }

  /** One credit per payment, in every state a run passes through. */
  predicate AlwaysOneCredit(db: Db, ops: seq<Op>)
    decreases |ops|
  {
    OneCreditPerPayment(db.outcomes) && (ops == [] || AlwaysOneCredit(Apply(db, ops[0]), ops[1..]))
  }

  /** A run credits every payment at most once, in every state it passes through, exactly when no webhook in it reports
      a payment already credited to another case while the order has an open case in its currency. */
  lemma {:induction false} OneCreditPerPaymentExactly(db: Db, ops: seq<Op>)
    requires Inv(db) && OneCreditPerPayment(db.outcomes)
    ensures AlwaysOneCredit(db, ops) <==> NeverCreditsAgain(db, ops)
    decreases |ops|
  {
    if ops != [] {
      StepKeepsInv(db, ops[0]);
      StepCreditsOnceExactly(db, ops[0]);
      if !CreditsAgain(db, ops[0]) {
        OneCreditPerPaymentExactly(Apply(db, ops[0]), ops[1..]);
      }
    }
  }
}
