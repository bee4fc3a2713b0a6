/**
 What a settlement writes, and when a poll or a webhook makes one, all from rows that can be looked up before the call:
 attempts, outcomes and payments by their positions, prices by their amounts.
 */
module Settlements {
  import opened Domain
  import opened Tables
  import opened Decision
  import opened Services
  import opened Effects
  import opened Invariants
  import opened Runs
  import opened WebhookRecovery
  import SyncEvents

  // ---- The credited attempt ----

  predicate CarriesRef(a: Attempt, caseId: nat, ref: string) {
    a.caseId == caseId && ref != "" && a.gatewayRef == Some(ref)
  }

  /** The attempt to credit: the newest of the case that carries the settled link's reference; when none does, the
      newest of the case; and none when the case has no attempt. */
  predicate Credited(attempts: seq<Attempt>, caseId: nat, ref: string, k: Option<nat>) {
    match k
    case None => forall i | 0 <= i < |attempts| :: attempts[i].caseId != caseId
    case Some(j) =>
      && j < |attempts| && attempts[j].caseId == caseId
      && if CarriesRef(attempts[j], caseId, ref)
         then forall i | j < i < |attempts| :: !CarriesRef(attempts[i], caseId, ref)
         else
           && (forall i | 0 <= i < |attempts| :: !CarriesRef(attempts[i], caseId, ref))
           && forall i | j < i < |attempts| :: attempts[i].caseId != caseId
  }

  lemma MatchIsCredited(attempts: seq<Attempt>, caseId: nat, ref: string)
    ensures Credited(attempts, caseId, ref, MatchingAttempt(attempts, caseId, ref))
  {
    MatchingAttemptFound(attempts, caseId, ref);
    var m := MatchingAttempt(attempts, caseId, ref);
    if m.Some? {
      var byRef := ref != "" && exists i :: 0 <= i < |attempts| && Matches(attempts[i], caseId, Some(ref));
      assert forall i | m.value < i < |attempts| :: !Matches(attempts[i], caseId, if byRef then Some(ref) else None);
      assert forall i | 0 <= i < |attempts| ::
          CarriesRef(attempts[i], caseId, ref) ==> ref != "" && Matches(attempts[i], caseId, Some(ref));
    }
  }

  // ---- What is written ----

  /** The case moves on where the table has a way, and holds the amount; all else stays. */
  predicate CaseSettled(c: Case, c': Case, amount: int) {
    var steps :=
      if c.status == VERIFYING then [RECOVERED]
      else if c.status in {EXECUTING, WAITING_EXTERNAL} then [VERIFYING, RECOVERED]
      else [];
    c' == c.(
      status := if steps == [] then c.status else RECOVERED, trail := c.trail + steps, amountRecovered := amount)
  }

  /** An acknowledged attempt that is credited has succeeded; every other attempt stays. */
  predicate AttemptCredited(a: seq<Attempt>, b: seq<Attempt>, k: Option<nat>) {
    if k.Some? && k.value < |a| && a[k.value].status in {DISPATCHED, ACKNOWLEDGED}
    then b == a[k.value := a[k.value].(status := SUCCEEDED)]
    else b == a
  }

  /** The price of the intervention that is credited, in minor units. */
  predicate CostIs(attempts: seq<Attempt>, k: Option<nat>, cost: int) {
    if k.None? || k.value >= |attempts| then cost == 0
    else
      var a := attempts[k.value].action;
      && (a == PAYMENT_LINK ==> cost == 200) && (a == CUSTOMER_REMINDER ==> cost == 150)
      && (a == HUMAN_ESCALATION ==> cost == 10000) && (a in {WAIT_AND_REASSESS, DO_NOTHING} ==> cost == 0)
  }

  /** The outcome of case `c` after it was settled by payment `payId`, crediting attempt `k`. A case's second outcome
      overwrites its first, but for the method. */
  predicate OutcomeSettled(a: Db, o: Outcome, c: nat, payId: nat, k: Option<nat>)
    requires c < |a.cases| && payId < |a.payments|
  {
    && o.caseId == c && o.settlingPayment == payId && o.successfulAttempt == k && o.isSuccessful
    && o.amount == a.payments[payId].amount && CostIs(a.attempts, k, o.cost)
    && (o.amount >= o.cost ==> o.net == o.amount - o.cost) && (o.amount < o.cost ==> o.net == 0)
  }

  predicate OutcomesAfter(a: Db, b: Db, c: nat, payId: nat, k: Option<nat>, at: nat)
    requires c < |a.cases| && payId < |a.payments|
  {
    && at < |b.outcomes| && OutcomeSettled(a, b.outcomes[at], c, payId, k)
    && if forall i | 0 <= i < |a.outcomes| :: a.outcomes[i].caseId != c
       then
         && at == |a.outcomes| && b.outcomes == a.outcomes + [b.outcomes[at]]
         && b.outcomes[at].merchant == a.cases[c].merchant
         && b.outcomes[at].recoveryMethod
            == (if k.Some? && k.value < |a.attempts| then Some(a.attempts[k.value].action) else None)
       else
         && at < |a.outcomes| && a.outcomes[at].caseId == c && b.outcomes == a.outcomes[at := b.outcomes[at]]
         && b.outcomes[at].merchant == a.outcomes[at].merchant
         && b.outcomes[at].recoveryMethod == a.outcomes[at].recoveryMethod
  }

  /** Everything that settling case `c` by payment `payId` writes. */
  predicate Written(a: Db, b: Db, c: nat, payId: nat, k: Option<nat>, at: nat)
    requires c < |a.cases| && payId < |a.payments|
  {
    && |b.cases| == |a.cases| && CaseSettled(a.cases[c], b.cases[c], a.payments[payId].amount)
    && AttemptCredited(a.attempts, b.attempts, k) && OutcomesAfter(a, b, c, payId, k, at)
    && b == a.(
         cases := a.cases[c := b.cases[c]], attempts := b.attempts, outcomes := b.outcomes,
         ledger := a.ledger
           + [Audit(a.cases[c].merchant, OutcomeEntity(at), CaptureVerified, SystemActor("verification-service"))])
  }

  ghost predicate SettlementWritten(a: Db, b: Db, c: nat, payId: nat, ref: string)
    requires c < |a.cases| && payId < |a.payments|
  {
    exists k, at :: Credited(a.attempts, c, ref, k) && Written(a, b, c, payId, k, at)
  }

  lemma RecoverSettles(c: Case, amount: int)
    requires c.status != RECOVERED
    ensures CaseSettled(c, Recover(c, amount), amount)
  {
    assert c.trail + [VERIFYING] + [RECOVERED] == c.trail + [VERIFYING, RECOVERED];
    assert c.trail + [] == c.trail;
  }

  lemma CostsAreBooked(attempts: seq<Attempt>, k: Option<nat>)
    requires k.Some? ==> k.value < |attempts|
    ensures CostIs(attempts, k, StrategyCost(if k.Some? then Some(attempts[k.value].action) else None))
  {
  }

  /** What is booked as an intervention's cost is what its strategy priced, for every case, context and policy. */
  lemma BookedCostIsPricedCost(a: ActionType, c: Case, ctx: Context, p: Policy)
    ensures StrategyCost(Some(a)) == EvaluateStrategy(a, c, ctx, p).cost
  {
  }

  /** A verification changes nothing unless the payment is captured, in the case's currency, and the case not recovered
      yet; then it writes the settlement and nothing else. */
  lemma VerificationWritesExactly(db: Db, caseId: nat, payId: nat, ref: string)
    requires caseId < |db.cases| && payId < |db.payments|
    ensures var after := VerifyAndRecover(db, caseId, payId, ref).0;
      var c, pay := db.cases[caseId], db.payments[payId];
      if c.status != RECOVERED && pay.status == PayCaptured && pay.currency == c.currency
      then SettlementWritten(db, after, caseId, payId, ref)
      else after == db
  {
    var c, pay := db.cases[caseId], db.payments[payId];
    if c.status != RECOVERED && pay.status == PayCaptured && pay.currency == c.currency {
      var after := VerifyAndRecover(db, caseId, payId, ref).0;
      var k, existing := MatchingAttempt(db.attempts, caseId, ref), FindOutcome(db.outcomes, caseId);
      MatchingAttemptFound(db.attempts, caseId, ref);
      MatchIsCredited(db.attempts, caseId, ref);
      FindOutcomeFound(db.outcomes, caseId);
      RecoverSettles(c, pay.amount);
      CostsAreBooked(db.attempts, k);
      var at := if existing.Some? then existing.value else |db.outcomes|;
      assert Written(db, after, caseId, payId, k, at);
    }
  }

  // ---- Polling ----

  /** A payment-link attempt of the case whose link can be asked for. */
  predicate Pollable(a: Attempt, caseId: nat) {
    a.caseId == caseId && a.action == PAYMENT_LINK && a.gatewayRef.Some? && a.gatewayRef.value != ""
  }

  predicate NewestPollable(attempts: seq<Attempt>, caseId: nat, i: nat) {
    && i < |attempts| && Pollable(attempts[i], caseId)
    && forall j | i < j < |attempts| :: !Pollable(attempts[j], caseId)
  }

  /** The link that is polled is that of the newest payment-link attempt of the case with a reference. */
  lemma {:induction false} PollsNewestLink(attempts: seq<Attempt>, caseId: nat)
    ensures var link := PollLink(attempts, caseId);
      && (link.None? <==> forall i | 0 <= i < |attempts| :: !Pollable(attempts[i], caseId))
      && (link.Some? ==> exists i: nat :: NewestPollable(attempts, caseId, i) && attempts[i].gatewayRef == link)
  {
    if attempts != [] {
      var n := |attempts| - 1;
      if Pollable(attempts[n], caseId) {
        assert NewestPollable(attempts, caseId, n);
      } else {
        PollsNewestLink(attempts[..n], caseId);
        if PollLink(attempts, caseId).Some? {
          var link := PollLink(attempts, caseId);
          var i: nat :| NewestPollable(attempts[..n], caseId, i) && attempts[..n][i].gatewayRef == link;
          assert NewestPollable(attempts, caseId, i);
        }
      }
    }
  }

  /** What the poll finds: the case, its merchant and order, a link to ask for that was paid, and a free id for the new
      payment row. */
  predicate PollFindsPaid(db: Db, op: Op)
    requires op.Poll?
  {
    && op.caseId < |db.cases| && op.merchantExists && op.linkPaid
    && (exists i | 0 <= i < |db.attempts| :: Pollable(db.attempts[i], op.caseId))
    && db.cases[op.caseId].order < |db.orders|
    && forall j | 0 <= j < |db.payments| ::
         !(db.payments[j].merchant == db.cases[op.caseId].merchant && db.payments[j].externalId == op.freshId)
  }

  /** The database with the order PAID and a captured payment of the whole amount at risk. */
  predicate PollBooks(a: Db, b: Db, c: nat)
    requires c < |a.cases| && a.cases[c].order < |a.orders|
  {
    var k := a.cases[c];
    && |b.payments| == |a.payments| + 1
    && b.payments[|a.payments|]
       == Payment(k.merchant, k.order, b.payments[|a.payments|].externalId, k.amountAtRisk, k.currency, PayCaptured)
    && b == a.(
         orders := a.orders[k.order := a.orders[k.order].(status := OrderPaid)],
         payments := a.payments + [b.payments[|a.payments|]])
  }

  /** The poll booked the payment, and the case is settled by it, crediting by the newest link, unless it is recovered
      already. */
  ghost predicate PollSettles(db: Db, after: Db, c: nat)
    requires c < |db.cases| && db.cases[c].order < |db.orders|
  {
    exists booked: Db, i: nat ::
      && PollBooks(db, booked, c) && NewestPollable(db.attempts, c, i)
      && if db.cases[c].status == RECOVERED then after == booked
         else SettlementWritten(booked, after, c, |db.payments|, db.attempts[i].gatewayRef.value)
  }

  function Booked(db: Db, c: nat, freshId: string): Db
    requires c < |db.cases| && db.cases[c].order < |db.orders|
  {
    var k := db.cases[c];
    db.(
      orders := db.orders[k.order := db.orders[k.order].(status := OrderPaid)],
      payments := db.payments + [Payment(k.merchant, k.order, freshId, k.amountAtRisk, k.currency, PayCaptured)])
  }

  lemma PollIsBookedAndVerified(db: Db, op: Op)
    requires op.Poll?
    ensures !PollFindsPaid(db, op) ==> Apply(db, op) == db
    ensures PollFindsPaid(db, op) ==>
      && PollLink(db.attempts, op.caseId).Some?
      && Apply(db, op) == VerifyAndRecover(
           Booked(db, op.caseId, op.freshId), op.caseId, |db.payments|, PollLink(db.attempts, op.caseId).value).0
  {
    PollsNewestLink(db.attempts, op.caseId);
    if op.caseId < |db.cases| { FindPaymentFound(db.payments, db.cases[op.caseId].merchant, op.freshId); }
  }

  /** A poll that finds no paid link changes nothing at all. One that finds one books the order and the payment, and
      settles the case by it unless that is recovered already, crediting by the newest link. */
  lemma PollWritesExactly(db: Db, op: Op)
    requires op.Poll?
    ensures !PollFindsPaid(db, op) ==> Apply(db, op) == db
    ensures PollFindsPaid(db, op) ==> PollSettles(db, Apply(db, op), op.caseId)
  {
    PollIsBookedAndVerified(db, op);
    if PollFindsPaid(db, op) {
      PollsNewestLink(db.attempts, op.caseId);
      var link := PollLink(db.attempts, op.caseId);
      var i: nat :| NewestPollable(db.attempts, op.caseId, i) && db.attempts[i].gatewayRef == link;
      var booked := Booked(db, op.caseId, op.freshId);
      assert PollBooks(db, booked, op.caseId);
      VerificationWritesExactly(booked, op.caseId, |db.payments|, link.value);
    }
  }

  /** A poll answers that the case is verified exactly when it finds a paid link for it; it raises for a missing case or
      merchant, and for a new payment id that is taken. */
  lemma PollAnswersExactly(db: Db, c: nat, merchantExists: bool, linkPaid: bool, freshId: string)
    requires OrdersOwned(db)
    ensures var r := PollAndReconcile(db, c, merchantExists, linkPaid, freshId);
      var op := Poll(c, merchantExists, linkPaid, freshId);
      && (r.Commit? ==> (r.value <==> PollFindsPaid(db, op)))
      && (r.Abort? <==>
            || c >= |db.cases| || !merchantExists
            || (linkPaid && (exists i | 0 <= i < |db.attempts| :: Pollable(db.attempts[i], c))
                && exists j | 0 <= j < |db.payments| ::
                     db.payments[j].merchant == db.cases[c].merchant && db.payments[j].externalId == freshId))
  {
    PollsNewestLink(db.attempts, c);
    if c < |db.cases| {
      FindPaymentFound(db.payments, db.cases[c].merchant, freshId);
      if PollFindsPaid(db, Poll(c, merchantExists, linkPaid, freshId)) {
        VerifyEffect(Booked(db, c, freshId), c, |db.payments|, PollLink(db.attempts, c).value);
      }
    }
  }

  lemma SettlementRecovers(db: Db, after: Db, c: nat)
    requires c < |db.cases| && db.cases[c].order < |db.orders| && db.cases[c].status != RECOVERED
    requires PollSettles(db, after, c)
    ensures |after.cases| == |db.cases| && forall i | 0 <= i < |db.cases| && i != c :: after.cases[i] == db.cases[i]
    ensures after.cases[c].status == RECOVERED <==> db.cases[c].status in {EXECUTING, WAITING_EXTERNAL, VERIFYING}
    ensures after.cases[c].amountRecovered == db.cases[c].amountAtRisk
  {
    var booked: Db, i: nat :|
      && PollBooks(db, booked, c) && NewestPollable(db.attempts, c, i)
      && SettlementWritten(booked, after, c, |db.payments|, db.attempts[i].gatewayRef.value);
    var k, at :| Credited(booked.attempts, c, db.attempts[i].gatewayRef.value, k)
      && Written(booked, after, c, |db.payments|, k, at);
    assert CaseSettled(booked.cases[c], after.cases[c], db.cases[c].amountAtRisk);
  }

  /** A poll recovers a case exactly when it is the case polled, it finds a paid link for it, and the case is being
      executed, waits or is being verified; the amount is then the whole amount at risk. */
  lemma PollRecoversExactly(db: Db, op: Op, c: nat)
    requires op.Poll? && c < |db.cases| && db.cases[c].status != RECOVERED
    ensures c < |Apply(db, op).cases|
    ensures Apply(db, op).cases[c].status == RECOVERED <==>
      op.caseId == c && PollFindsPaid(db, op) && db.cases[c].status in {EXECUTING, WAITING_EXTERNAL, VERIFYING}
    ensures Apply(db, op).cases[c].status == RECOVERED ==>
      Apply(db, op).cases[c].amountRecovered == db.cases[c].amountAtRisk
  {
    PollWritesExactly(db, op);
    if PollFindsPaid(db, op) {
      if db.cases[op.caseId].status != RECOVERED {
        SettlementRecovers(db, Apply(db, op), op.caseId);
      } else {
        assert Apply(db, op).cases == db.cases;
      }
    }
  }

  // ---- Webhooks ----

  /** The case that a success event is put to: the open case of the order it names. */
  predicate PutTo(db: Db, m: nat, p: Payload, c: nat) {
    && (p.eventType in {"payment.captured", "payment_link.paid", "order.paid"} || p.status == "captured")
    && p.eventType != "payment.failed" && p.status != "failed"
    && c < |db.cases| && FindOrder(db.orders, m, p.externalOrderId) == Some(db.cases[c].order)
    && db.cases[c].status in {APPROVED, EXECUTING, WAITING_EXTERNAL, VERIFYING, ESCALATED}
  }

  lemma PutToExactly(db: Db, m: nat, p: Payload, c: nat)
    requires UniqueActive(db.cases) && OrdersOwned(db)
    ensures PutTo(db, m, p, c) <==> CaseFor(db, m, p) == Some(c)
  {
    FindOrderFound(db.orders, m, p.externalOrderId);
    var order := FindOrder(db.orders, m, p.externalOrderId);
    if order.Some? {
      FirstVerifiableFound(db.cases, order.value);
      LookupsNeverAmbiguous(db, m, order.value);
      var f := FirstVerifiable(db.cases, order.value);
      if f.Some? && c < |db.cases| && f.value != c {
        assert !(Verifiable(db.cases[f.value], order.value) && Verifiable(db.cases[c], order.value));
      }
    }
  }

  /** The amount its payment has: on record, or else the event's own. */
  function PaidAmount(db: Db, m: nat, p: Payload): int {
    FindPaymentFound(db.payments, m, p.externalPaymentId);
    match FindPayment(db.payments, m, p.externalPaymentId)
    case None => p.amount
    case Some(i) => db.payments[i].amount
  }

  /** Where its payment is, or will be. */
  function PaidRow(db: Db, m: nat, p: Payload): nat {
    match FindPayment(db.payments, m, p.externalPaymentId)
    case None => |db.payments|
    case Some(i) => i
  }

  /** What the task has written before it verifies: nothing about cases, attempts, outcomes or decisions, and the
      payment, captured, with its amount and currency. */
  predicate Prepared(db: Db, paid: Db, m: nat, p: Payload) {
    && paid.cases == db.cases && paid.attempts == db.attempts && paid.outcomes == db.outcomes
    && paid.decisions == db.decisions && paid.ledger == db.ledger && paid.events == db.events
    && var i := PaidRow(db, m, p);
       && i < |paid.payments| && paid.payments[i].merchant == m && paid.payments[i].externalId == p.externalPaymentId
       && paid.payments[i].amount == PaidAmount(db, m, p) && paid.payments[i].currency == PaidIn(db, m, p)
       && paid.payments[i].status == PayCaptured
  }

  lemma SyncKeepsAmount(db: Db, m: nat, p: Payload, read: CustomerRead)
    ensures var synced := SyncAll(db, m, p, read).0;
      && FindPayment(synced.payments, m, p.externalPaymentId) == Some(PaidRow(db, m, p))
      && PaidAmount(synced, m, p) == PaidAmount(db, m, p) && PaidIn(synced, m, p) == PaidIn(db, m, p)
  {
    SyncAllTouches(db, m, p, read);
    SyncEvents.SyncedRows(db, m, p, read, p.externalOrderId);
    FindPaymentFound(db.payments, m, p.externalPaymentId);
  }

  /** A success event's task, on the synchronised rows. */
  lemma WebhookPrepares(db: Db, m: nat, p: Payload, freshId: string, c: nat)
    requires UniqueActive(db.cases) && OrdersOwned(db) && PutTo(db, m, p, c)
    requires FindPayment(db.payments, m, p.externalPaymentId).Some?
    ensures exists paid: Db ::
      && Prepared(db, paid, m, p)
      && VerifyFromWebhook(db, m, p, freshId)
         == Commit(VerifyAndRecover(paid, c, PaidRow(db, m, p), p.linkId).0,
              Some(VerifyAndRecover(paid, c, PaidRow(db, m, p), p.linkId).1))
  {
    PutToExactly(db, m, p, c);
    FindOrderFound(db.orders, m, p.externalOrderId);
    FindPaymentFound(db.payments, m, p.externalPaymentId);
    var order := FindOrder(db.orders, m, p.externalOrderId).value;
    LookupsNeverAmbiguous(db, m, order);
    var paid := SettlingPayment(db, m, order, p, freshId).0;
    assert Prepared(db, paid, m, p);
  }

  /** The database after a success event was put to case `c`, but for the event's own flag. */
  ghost predicate PaidInto(db: Db, after: Db, m: nat, p: Payload, c: nat)
    requires c < |db.cases|
  {
    exists paid: Db ::
      && Prepared(db, paid, m, p)
      && if PaidIn(db, m, p) == db.cases[c].currency
         then SettlementWritten(paid, after, c, PaidRow(db, m, p), p.linkId)
         else after == paid
  }

  lemma HandlingPaysInto(db: Db, m: nat, p: Payload, now: int, missed: Missed, freshId: string, c: nat)
    requires Core(db) && PutTo(db, m, p, c)
    ensures var r := HandleEvent(db, m, p, now, missed, freshId); r.Commit? && PaidInto(db, r.db, m, p, c)
  {
    SyncAllValid(db, m, p, missed.customer);
    SyncKeepsTarget(db, m, p, missed.customer);
    SyncKeepsAmount(db, m, p, missed.customer);
    PutToExactly(db, m, p, c);
    SyncKeepsOwners(db, m, p, missed.customer);
    var synced := SyncAll(db, m, p, missed.customer).0;
    PutToExactly(synced, m, p, c);
    WebhookPrepares(synced, m, p, freshId, c);
    var paid: Db :| Prepared(synced, paid, m, p)
      && VerifyFromWebhook(synced, m, p, freshId)
         == Commit(VerifyAndRecover(paid, c, PaidRow(synced, m, p), p.linkId).0,
              Some(VerifyAndRecover(paid, c, PaidRow(synced, m, p), p.linkId).1));
    VerificationWritesExactly(paid, c, PaidRow(synced, m, p), p.linkId);
    assert Prepared(db, paid, m, p);
  }

  lemma SyncKeepsOwners(db: Db, m: nat, p: Payload, read: CustomerRead)
    requires Core(db)
    ensures var synced := SyncAll(db, m, p, read).0; UniqueActive(synced.cases) && OrdersOwned(synced)
  {
    SyncAllValid(db, m, p, read);
    SyncAllEffect(db, m, p, read);
    CoreQuiet(db, SyncAll(db, m, p, read).0);
  }

  /** A success event put to a case captures its payment, with the amount and currency on record or else its own, and
      settles the case by it exactly when the currency is the case's, crediting by the link it names. One put to no
      case leaves cases, attempts, outcomes, decisions and the ledger alone. */
  lemma WebhookSettlesExactly(db: Db, op: Op)
    requires Core(db) && Proceeds(db, op)
    ensures var m, p := db.events[op.rawId].merchant, db.events[op.rawId].payload.value;
      forall c | PutTo(db, m, p, c) ::
        exists after: Db ::
          PaidInto(db, after, m, p, c) && op.rawId < |after.events|
          && Apply(db, op) == after.(
               events := after.events[op.rawId := after.events[op.rawId].(processed := true)])
    ensures var m, p := db.events[op.rawId].merchant, db.events[op.rawId].payload.value;
      p.eventType != "payment.failed" && p.status != "failed" && (forall c :: !PutTo(db, m, p, c)) ==>
        && Apply(db, op).cases == db.cases && Apply(db, op).attempts == db.attempts
        && Apply(db, op).outcomes == db.outcomes && Apply(db, op).decisions == db.decisions
        && Apply(db, op).ledger == db.ledger
  {
    var m, p := db.events[op.rawId].merchant, db.events[op.rawId].payload.value;
    HandleEventKeepsEvents(db, m, p, op.now, op.missed, op.freshId);
    forall c | PutTo(db, m, p, c)
      ensures exists after: Db ::
        PaidInto(db, after, m, p, c) && op.rawId < |after.events|
        && Apply(db, op) == after.(events := after.events[op.rawId := after.events[op.rawId].(processed := true)])
    {
      HandlingPaysInto(db, m, p, op.now, op.missed, op.freshId, c);
      var after := HandleEvent(db, m, p, op.now, op.missed, op.freshId).db;
      assert PaidInto(db, after, m, p, c);
    }
    if p.eventType != "payment.failed" && p.status != "failed" && forall c :: !PutTo(db, m, p, c) {
      HandlingPutToNone(db, m, p, op.now, op.missed, op.freshId);
    }
  }

  lemma HandlingPutToNone(db: Db, m: nat, p: Payload, now: int, missed: Missed, freshId: string)
    requires Core(db) && p.eventType != "payment.failed" && p.status != "failed" && forall c :: !PutTo(db, m, p, c)
    ensures var r := HandleEvent(db, m, p, now, missed, freshId);
      && r.Commit? && r.db.cases == db.cases && r.db.attempts == db.attempts && r.db.outcomes == db.outcomes
      && r.db.decisions == db.decisions && r.db.ledger == db.ledger
  {
    var target := CaseFor(db, m, p);
    if target.Some? { PutToExactly(db, m, p, target.value); }
    SyncAllValid(db, m, p, missed.customer);
    SyncKeepsTarget(db, m, p, missed.customer);
    SyncKeepsOwners(db, m, p, missed.customer);
    var synced := SyncAll(db, m, p, missed.customer).0;
    FindOrderFound(synced.orders, m, p.externalOrderId);
    var order := FindOrder(synced.orders, m, p.externalOrderId);
    if order.Some? { LookupsNeverAmbiguous(synced, m, order.value); }
  }
}
