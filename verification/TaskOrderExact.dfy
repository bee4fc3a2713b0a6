/** Two orders that end differently, wherever TaskOrder's condition for order independence does not hold. */
module TaskOrderExact {
  import opened Domain
  import opened Tables
  import opened Services
  import opened Lifecycle
  import opened Runs
  import opened Interleaving
  import opened Sync = OrderPaymentSync
  import opened SyncEvents
  import opened WebhookRecovery
  import opened Scenarios
  import opened TaskOrder

  predicate AllAbout(events: seq<Arrival>, m: nat, id: string) {
    forall a | a in events :: AboutPayment(a, m, id)
  }

  lemma {:induction false} AboutAll(events: seq<Arrival>, m: nat, id: string)
    requires AllAbout(events, m, id)
    ensures About(events, m, id) == events
  {
    if events != [] {
      var n := |events| - 1;
      assert events == events[..n] + [events[n]];
      AboutAll(events[..n], m, id);
    }
  }

  lemma AboutReordered(f: seq<Arrival>, events: seq<Arrival>, m: nat, id: string)
    requires AllAbout(events, m, id) && multiset(f) == multiset(events)
    ensures AllAbout(f, m, id) && About(f, m, id) == f
  {
    forall a | a in f ensures AboutPayment(a, m, id) {
      assert a in multiset(f);
      assert a in multiset(events);
    }
    AboutAll(f, m, id);
  }

  lemma Refuted(db: Db, a: seq<Arrival>, b: seq<Arrival>, events: seq<Arrival>, m: nat, id: string)
    requires Reached(db) && PaymentStatusOf(db, m, id).None?
    requires multiset(a) == multiset(b) && multiset(About(a, m, id)) == multiset(events)
    requires PaymentStatusOf(HandleInTurn(db, a, NOON), m, id) != PaymentStatusOf(HandleInTurn(db, b, NOON), m, id)
    ensures !OrderIrrelevant(events, m, id)
  {
  }

  // ---- Reports that are neither alike nor captures and failures only ----

  lemma {:induction false} Reporter(events: seq<Arrival>, m: nat, id: string, r: PaymentStatus) returns (i: nat)
    requires r in Reports(events, m, id)
    ensures i < |events| && AboutPayment(events[i], m, id) && MappedStatus(events[i].payload.status) == r
  {
    var n := |events| - 1;
    if AboutPayment(events[n], m, id) && MappedStatus(events[n].payload.status) == r {
      i := n;
    } else {
      i := Reporter(events[..n], m, id, r);
    }
  }

  lemma Cancel(a: multiset<PaymentStatus>, b: multiset<PaymentStatus>, x: PaymentStatus)
    requires a + multiset{x} == b + multiset{x}
    ensures a == b
  {
    assert a == a + multiset{x} - multiset{x} && b == b + multiset{x} - multiset{x};
  }

  lemma Without(events: seq<Arrival>, i: nat, m: nat, id: string) returns (rest: seq<Arrival>)
    requires i < |events| && AllAbout(events, m, id)
    ensures |rest| + 1 == |events| && AllAbout(rest, m, id) && multiset(events) == multiset(rest) + multiset{events[i]}
    ensures multiset(Reports(events, m, id))
      == multiset(Reports(rest, m, id)) + multiset{MappedStatus(events[i].payload.status)}
  {
    rest := events[..i] + events[i + 1..];
    assert events == events[..i] + [events[i]] + events[i + 1..];
    assert events[i] in events;
    ReportsSplit(events, i, m, id);
  }

  /** An event that reports the last of the wanted statuses, and the events that are left without it. */
  lemma ReporterOfLast(events: seq<Arrival>, q: seq<PaymentStatus>, m: nat, id: string)
    returns (e: Arrival, rest: seq<Arrival>)
    requires q != [] && AllAbout(events, m, id) && multiset(q) == multiset(Reports(events, m, id))
    ensures AboutPayment(e, m, id) && MappedStatus(e.payload.status) == q[|q| - 1]
    ensures |rest| + 1 == |events| && AllAbout(rest, m, id) && multiset(events) == multiset(rest) + multiset{e}
    ensures multiset(q[..|q| - 1]) == multiset(Reports(rest, m, id))
  {
    var front, last := q[..|q| - 1], q[|q| - 1];
    assert q == front + [last];
    assert last in multiset(q);
    var i := Reporter(events, m, id, last);
    e := events[i];
    rest := Without(events, i, m, id);
    Cancel(multiset(front), multiset(Reports(rest, m, id)), last);
  }

  lemma NoReports(events: seq<Arrival>, q: seq<PaymentStatus>, m: nat, id: string)
    requires AllAbout(events, m, id) && multiset(q) == multiset(Reports(events, m, id))
    ensures events == [] <==> q == []
  {
    assert |multiset(q)| == |q| && |multiset(Reports(events, m, id))| == |Reports(events, m, id)|;
    if events != [] { assert events[|events| - 1] in events; }
  }

  /** The reports of these events, in this order, are `q`. */
  predicate Tells(f: seq<Arrival>, events: seq<Arrival>, q: seq<PaymentStatus>, m: nat, id: string) {
    multiset(f) == multiset(events) && Reports(f, m, id) == q
  }

  lemma LastDelivered(
    g: seq<Arrival>, rest: seq<Arrival>, e: Arrival, events: seq<Arrival>, q: seq<PaymentStatus>, m: nat, id: string)
    requires q != [] && Tells(g, rest, q[..|q| - 1], m, id) && multiset(events) == multiset(rest) + multiset{e}
    requires AboutPayment(e, m, id) && MappedStatus(e.payload.status) == q[|q| - 1]
    ensures Tells(g + [e], events, q, m, id)
  {
    ReportsSnoc(g, e, m, id);
    assert q == q[..|q| - 1] + [q[|q| - 1]];
  }

  /** Every order of the reports comes from an order of the events. */
  lemma {:induction false} Rearranged(events: seq<Arrival>, q: seq<PaymentStatus>, m: nat, id: string)
    returns (f: seq<Arrival>)
    requires AllAbout(events, m, id) && multiset(q) == multiset(Reports(events, m, id))
    ensures Tells(f, events, q, m, id)
    decreases |q|
  {
    if q == [] {
      NoReports(events, q, m, id);
      f := [];
    } else {
      var e, rest := ReporterOfLast(events, q, m, id);
      var g := Rearranged(rest, q[..|q| - 1], m, id);
      LastDelivered(g, rest, e, events, q, m, id);
      f := g + [e];
    }
  }

  lemma EmptyStore()
    ensures Core(EMPTY) && Reached(EMPTY) && NothingOpen(EMPTY)
  {
    EmptyInv();
    ReachedStart();
  }

  lemma MixedReports(events: seq<Arrival>, m: nat, id: string)
    requires AllAbout(events, m, id)
    requires var reports := Reports(events, m, id); !OnlyCapturedOrFailed(reports) && !AllEqual(reports)
    ensures !OrderIrrelevant(events, m, id)
  {
    var reports := Reports(events, m, id);
    PaymentOrderIndependence(reports);
    var q: seq<PaymentStatus> :|
      q != [] && multiset(q) == multiset(reports) && FinalPayment(q) != FinalPayment(reports);
    var f := Rearranged(events, q, m, id);
    EmptyStore();
    PaymentAfterTasks(EMPTY, f, NOON, m, id);
    PaymentAfterTasks(EMPTY, events, NOON, m, id);
    AboutReordered(f, events, m, id);
    Refuted(EMPTY, f, events, events, m, id);
  }

  // ---- A success event that reports less than a capture ----

  lemma PaymentFoundStays(a: seq<Payment>, b: seq<Payment>, m: nat, id: string)
    requires PaymentsEvolve(a, b) && FindPayment(a, m, id).Some?
    ensures FindPayment(b, m, id) == FindPayment(a, m, id)
  {
    FindPaymentFound(a, m, id);
    FindPaymentFound(b, m, id);
  }

  function CurrencyOf(db: Db, m: nat, id: string): Option<string> {
    FindPaymentFound(db.payments, m, id);
    match FindPayment(db.payments, m, id)
    case None => None
    case Some(i) => Some(db.payments[i].currency)
  }

  lemma WebhookKeepsCurrency(db: Db, m: nat, p: Payload, freshId: string)
    requires FindPayment(db.payments, m, p.externalPaymentId).Some?
    ensures var r := VerifyFromWebhook(db, m, p, freshId);
      r.Commit? ==> CurrencyOf(r.db, m, p.externalPaymentId) == CurrencyOf(db, m, p.externalPaymentId)
  {
    FindOrderFound(db.orders, m, p.externalOrderId);
    FindPaymentFound(db.payments, m, p.externalPaymentId);
    var order := FindOrder(db.orders, m, p.externalOrderId);
    if order.Some? && FirstVerifiable(db.cases, order.value).Some? {
      FirstVerifiableFound(db.cases, order.value);
      SettlingPaymentValid(db, m, order.value, p, freshId);
      var (paid, payId) := SettlingPayment(db, m, order.value, p, freshId);
      FindPaymentStable(db.payments, payId, paid.payments[payId], m, p.externalPaymentId);
      var c := FirstVerifiable(db.cases, order.value).value;
      VerifyMovesCase(paid, c, payId, p.linkId, c);
    }
  }

  /** After its task a payment is on record in the currency it had, or else in the event's. */
  lemma TurnKeepsCurrency(db: Db, a: Arrival, now: int)
    requires Core(db)
    ensures CurrencyOf(Turn(db, a, now), a.merchant, a.payload.externalPaymentId)
      == Some(PaidIn(db, a.merchant, a.payload))
  {
    var m, p := a.merchant, a.payload;
    TurnIsSound(db, a, now);
    SyncAllValid(db, m, p, ReadsNow);
    SyncKeepsTarget(db, m, p, ReadsNow);
    var (synced, order, pay) := SyncAll(db, m, p, ReadsNow);
    if IsFailureEvent(p) {
      CreationMoves(synced, m, order, pay, p, now, false);
    } else if IsCaptureEvent(p) {
      WebhookKeepsCurrency(synced, m, p, NO_ID);
    }
  }

  /** The order's case waits for a payment in the shop's currency. */
  predicate Pending(db: Db, shop: Shop) {
    && |db.cases| > 0 && db.cases[0].status == WAITING_EXTERNAL
    && db.cases[0].order == 0 && db.cases[0].currency == shop.currency
    && FindOrder(db.orders, shop.merchant, shop.key) == Some(0)
  }

  lemma PendingCaseIsFor(db: Db, shop: Shop, p: Payload)
    requires Pending(db, shop) && TakenUp(p) && p.externalOrderId == shop.key
    ensures CaseFor(db, shop.merchant, p).Some?
    ensures |db.cases| == 1 ==> CaseFor(db, shop.merchant, p) == Some(0)
  {
    FirstVerifiableFound(db.cases, 0);
    assert Verifiable(db.cases[0], 0);
  }

  lemma TurnKeepsPending(db: Db, a: Arrival, now: int, shop: Shop)
    requires Core(db) && Pending(db, shop) && PaidIn(db, a.merchant, a.payload) != shop.currency
    ensures Pending(Turn(db, a, now), shop)
  {
    TurnIsSound(db, a, now);
    CoreHandled(db, a.merchant, a.payload, now, NOTHING_MISSED, NO_ID);
    HandlingMovesCase(db, a.merchant, a.payload, now, NOTHING_MISSED, NO_ID, 0);
    OrderFoundStays(db.orders, Turn(db, a, now).orders, shop.merchant, shop.key);
    assert CaseEvolves(db.cases[0], Turn(db, a, now).cases[0]);
  }

  /** Events about one payment of another currency leave the case waiting. */
  lemma {:induction false} TurnsKeepPending(db: Db, events: seq<Arrival>, shop: Shop, id: string, currency: string)
    requires Core(db) && Pending(db, shop) && AllAbout(events, shop.merchant, id)
    requires CurrencyOf(db, shop.merchant, id).None? && currency != shop.currency
    requires events != [] ==> events[0].payload.currency == currency
    ensures var after := HandleInTurn(db, events, NOON);
      && Core(after) && Pending(after, shop)
      && CurrencyOf(after, shop.merchant, id) == if events == [] then None else Some(currency)
  {
    if events != [] {
      var n := |events| - 1;
      assert events == events[..n] + [events[n]];
      assert events[n] in events;
      TurnsKeepPending(db, events[..n], shop, id, currency);
      AnotherTurnKeepsPending(HandleInTurn(db, events[..n], NOON), events[n], shop, id, currency);
    }
  }

  lemma AnotherTurnKeepsPending(db: Db, a: Arrival, shop: Shop, id: string, currency: string)
    requires Core(db) && Pending(db, shop) && AboutPayment(a, shop.merchant, id) && currency != shop.currency
    requires CurrencyOf(db, shop.merchant, id) in {None, Some(currency)}
    requires CurrencyOf(db, shop.merchant, id).None? ==> a.payload.currency == currency
    ensures var after := Turn(db, a, 0);
      Core(after) && Pending(after, shop) && CurrencyOf(after, shop.merchant, id) == Some(currency)
  {
    PaidInAlready(db, shop.merchant, id, a);
    TurnKeepsPending(db, a, 0, shop);
    TurnKeepsCurrency(db, a, 0);
    TurnIsSound(db, a, 0);
  }

  lemma PaidInAlready(db: Db, m: nat, id: string, a: Arrival)
    requires AboutPayment(a, m, id)
    ensures PaidIn(db, a.merchant, a.payload)
      == match CurrencyOf(db, m, id) case None => a.payload.currency case Some(c) => c
  {
  }

  // ---- The store and the two orders ----

  function CaptureFor(shop: Shop, id: string): Arrival {
    Arrival(shop.merchant, SuccessEvent(shop, id + "pp", "payment.captured", "captured"))
  }

  lemma OtherPayments(m: nat, id: string, shop: Shop)
    ensures id + "p" != id && id + "pp" != id && id + "p" != id + "pp"
    ensures !AboutPayment(CaptureFor(shop, id), m, id)
  {
    assert |id + "p"| == |id| + 1 && |id + "pp"| == |id| + 2;
  }

  /** A waiting case on the shop's order, and no payment of that id. */
  lemma ReachPending(shop: Shop, id: string) returns (db: Db)
    requires ShopOk(shop)
    ensures Reached(db) && Core(db) && Pending(db, shop) && |db.cases| == 1
    ensures PaymentStatusOf(db, shop.merchant, id).None? && CurrencyOf(db, shop.merchant, id).None?
    ensures NewPayment(db, id + "pp")
  {
    OtherPayments(shop.merchant, id, shop);
    db := ReachLinkOut(shop, id + "p");
    ReachedSound(db);
    TheOrderIsFound(db, shop);
    FindPaymentFound(db.payments, shop.merchant, id);
  }

  lemma OneMoreTurn(db: Db, events: seq<Arrival>, z: Arrival)
    ensures HandleInTurn(db, events + [z], NOON) == Turn(HandleInTurn(db, events, NOON), z, 0)
  {
    assert (events + [z])[..|events|] == events;
  }

  /** A success event on a waiting order: the case takes the payment, which is forced to CAPTURED. */
  lemma SuccessNow(db: Db, x: Arrival, shop: Shop, id: string)
    requires Core(db) && Pending(db, shop) && AboutPayment(x, shop.merchant, id)
    requires TakenUp(x.payload) && x.payload.externalOrderId == shop.key
    ensures Core(Turn(db, x, 0)) && PaymentStatusOf(Turn(db, x, 0), shop.merchant, id) == Some(PayCaptured)
  {
    PendingCaseIsFor(db, shop, x.payload);
    TurnMovesPayment(db, x, 0, shop.merchant, id);
    TurnIsSound(db, x, 0);
  }

  lemma SuccessAfter(db: Db, front: seq<Arrival>, last: Arrival, shop: Shop, id: string, currency: string)
    requires Core(db) && Pending(db, shop) && CurrencyOf(db, shop.merchant, id).None? && currency != shop.currency
    requires AllAbout(front, shop.merchant, id) && AboutPayment(last, shop.merchant, id)
    requires front != [] ==> front[0].payload.currency == currency
    requires TakenUp(last.payload) && last.payload.externalOrderId == shop.key
    ensures Core(HandleInTurn(db, front + [last], NOON))
    ensures PaymentStatusOf(HandleInTurn(db, front + [last], NOON), shop.merchant, id) == Some(PayCaptured)
  {
    TurnsKeepPending(db, front, shop, id, currency);
    OneMoreTurn(db, front, last);
    SuccessNow(HandleInTurn(db, front, NOON), last, shop, id);
  }

  lemma SplitLast(events: seq<Arrival>, m: nat, id: string) returns (front: seq<Arrival>, last: Arrival)
    requires events != [] && AllAbout(events, m, id)
    ensures events == front + [last] && last == events[|events| - 1] && (front != [] ==> front[0] == events[0])
    ensures AllAbout(front, m, id) && AboutPayment(last, m, id)
  {
    front, last := events[..|events| - 1], events[|events| - 1];
    assert last in events;
  }

  /** The success event comes last, and the case still waits. */
  lemma SuccessLast(db: Db, events: seq<Arrival>, shop: Shop, id: string)
    requires Core(db) && Pending(db, shop) && CurrencyOf(db, shop.merchant, id).None?
    requires AllAbout(events, shop.merchant, id) && events != [] && events[0].payload.currency != shop.currency
    requires var last := events[|events| - 1].payload; TakenUp(last) && last.externalOrderId == shop.key
    ensures Core(HandleInTurn(db, events, NOON))
    ensures PaymentStatusOf(HandleInTurn(db, events, NOON), shop.merchant, id) == Some(PayCaptured)
  {
    var front, last := SplitLast(events, shop.merchant, id);
    SuccessAfter(db, front, last, shop, id, events[0].payload.currency);
  }

  /** A capture of another payment comes first and closes the case: nothing is left open. */
  lemma CaptureFirst(db: Db, shop: Shop, id: string)
    requires Core(db) && Pending(db, shop) && |db.cases| == 1
    requires PaymentStatusOf(db, shop.merchant, id).None? && NewPayment(db, id + "pp")
    ensures var after := Turn(db, CaptureFor(shop, id), 0);
      Core(after) && NothingOpen(after) && PaymentStatusOf(after, shop.merchant, id).None?
  {
    var z := CaptureFor(shop, id);
    OtherPayments(shop.merchant, id, shop);
    TurnIsSound(db, z, 0);
    TurnMovesPayment(db, z, 0, shop.merchant, id);
    FindPaymentFound(db.payments, shop.merchant, id + "pp");
    PendingCaseIsFor(db, shop, z.payload);
    HandlingMovesCase(db, z.merchant, z.payload, 0, NOTHING_MISSED, NO_ID, 0);
    HandlingOpens(db, z.merchant, z.payload, 0, NOTHING_MISSED, NO_ID);
  }

  lemma CaptureAfter(db: Db, shop: Shop, id: string)
    requires Core(db)
    ensures PaymentStatusOf(Turn(db, CaptureFor(shop, id), 0), shop.merchant, id)
      == PaymentStatusOf(db, shop.merchant, id)
  {
    OtherPayments(shop.merchant, id, shop);
    TurnMovesPayment(db, CaptureFor(shop, id), 0, shop.merchant, id);
  }

  lemma LastThenCapture(db: Db, events: seq<Arrival>, shop: Shop, id: string)
    requires Core(db) && Pending(db, shop) && CurrencyOf(db, shop.merchant, id).None?
    requires AllAbout(events, shop.merchant, id) && events != [] && events[0].payload.currency != shop.currency
    requires var last := events[|events| - 1].payload; TakenUp(last) && last.externalOrderId == shop.key
    ensures PaymentStatusOf(HandleInTurn(db, events + [CaptureFor(shop, id)], NOON), shop.merchant, id)
      == Some(PayCaptured)
  {
    SuccessLast(db, events, shop, id);
    OneMoreTurn(db, events, CaptureFor(shop, id));
    CaptureAfter(HandleInTurn(db, events, NOON), shop, id);
  }

  lemma CaptureThenRest(db: Db, events: seq<Arrival>, shop: Shop, id: string)
    requires Core(db) && Pending(db, shop) && |db.cases| == 1
    requires PaymentStatusOf(db, shop.merchant, id).None? && NewPayment(db, id + "pp")
    ensures PaymentStatusOf(HandleInTurn(db, [CaptureFor(shop, id)] + events, NOON), shop.merchant, id)
      == Folded(Reports(events, shop.merchant, id))
  {
    var z := CaptureFor(shop, id);
    CaptureFirst(db, shop, id);
    TurnsJoin(db, [z], events);
    assert [z][..0] == [];
    assert HandleInTurn(db, [z], NOON) == Turn(db, z, 0);
    PaymentAfterTasks(Turn(db, z, 0), events, NOON, shop.merchant, id);
  }

  function DeliveredLast(events: seq<Arrival>, i: nat): (f: seq<Arrival>)
    requires i < |events|
    ensures multiset(f) == multiset(events) && f != [] && f[|f| - 1] == events[i]
  {
    assert events == events[..i] + [events[i]] + events[i + 1..];
    events[..i] + events[i + 1..] + [events[i]]
  }

  lemma ReportsAt(events: seq<Arrival>, i: nat, m: nat, id: string)
    requires i < |events| && AboutPayment(events[i], m, id)
    ensures MappedStatus(events[i].payload.status) in Reports(events, m, id)
  {
    ReportsSplit(events, i, m, id);
    assert MappedStatus(events[i].payload.status) in multiset(Reports(events, m, id));
  }

  function OtherCurrency(currency: string): (c: string)
    ensures c != currency && |c| == 3
  {
    if currency == "INR" then "USD" else "INR"
  }

  lemma BothBatches(f: seq<Arrival>, events: seq<Arrival>, z: Arrival, m: nat, id: string)
    requires AllAbout(events, m, id) && multiset(f) == multiset(events) && !AboutPayment(z, m, id)
    ensures AllAbout(f, m, id) && multiset(f + [z]) == multiset([z] + events)
    ensures multiset(About(f + [z], m, id)) == multiset(events)
  {
    AboutReordered(f, events, m, id);
    assert (f + [z])[..|f|] == f;
    assert About(f + [z], m, id) == f + [];
  }

  lemma AlikeReports(events: seq<Arrival>, i: nat, m: nat, id: string)
    requires AllAbout(events, m, id) && AllEqual(Reports(events, m, id)) && i < |events|
    ensures Folded(Reports(events, m, id)) == Some(MappedStatus(events[i].payload.status))
  {
    assert AboutPayment(events[i], m, id);
    ReportsAt(events, i, m, id);
    FailedWinsWithoutCapture(Reports(events, m, id));
  }

  lemma DishonestEvent(events: seq<Arrival>, i: nat, m: nat, id: string)
    requires AllAbout(events, m, id) && AllEqual(Reports(events, m, id))
    requires i < |events| && !Honest(events[i].payload)
    ensures !OrderIrrelevant(events, m, id)
  {
    var f := DeliveredLast(events, i);
    var shop := Shop(m, events[i].payload.externalOrderId, OtherCurrency(f[0].payload.currency), "");
    OtherPayments(m, id, shop);
    BothBatches(f, events, CaptureFor(shop, id), m, id);
    var db := ReachPending(shop, id);
    LastThenCapture(db, f, shop, id);
    CaptureThenRest(db, events, shop, id);
    AlikeReports(events, i, m, id);
    Refuted(db, f + [CaptureFor(shop, id)], [CaptureFor(shop, id)] + events, events, m, id);
  }

  // ---- Exactly ----

  /** The tasks of the events about a payment may run in any order, whatever store they meet and whatever comes between
      them, exactly when the events report captures and failures with a capture among them, or all report one status
      and no success event of a named order reports less than a capture. */
  lemma TaskOrderIrrelevantExactly(events: seq<Arrival>, m: nat, id: string)
    requires AllAbout(events, m, id)
    ensures OrderIrrelevant(events, m, id) <==> AnyOrderWillDo(events, m, id)
  {
    var reports := Reports(events, m, id);
    if AnyOrderWillDo(events, m, id) {
      SufficientOrder(events, m, id);
    } else if !OnlyCapturedOrFailed(reports) && !AllEqual(reports) {
      MixedReports(events, m, id);
    } else {
      assert AllEqual(reports);
      var a :| a in events && AboutPayment(a, m, id) && !Honest(a.payload);
      var i :| 0 <= i < |events| && events[i] == a;
      DishonestEvent(events, i, m, id);
    }
  }

  // ---- Two events that report the same ----

  lemma TwoInTurn(db: Db, x: Arrival, y: Arrival)
    ensures HandleInTurn(db, [x, y], NOON) == Turn(Turn(db, x, 0), y, 0)
  {
    assert [x, y][..1] == [x] && [x][..0] == [];
    assert HandleInTurn(db, [x], NOON) == Turn(db, x, 0);
  }

  lemma IdleTurnKeepsPending(db: Db, a: Arrival, now: int, shop: Shop)
    requires Core(db) && Pending(db, shop) && !TakenUp(a.payload)
    ensures Pending(Turn(db, a, now), shop)
  {
    TurnIsSound(db, a, now);
    CoreHandled(db, a.merchant, a.payload, now, NOTHING_MISSED, NO_ID);
    HandlingMovesCase(db, a.merchant, a.payload, now, NOTHING_MISSED, NO_ID, 0);
    OrderFoundStays(db.orders, Turn(db, a, now).orders, shop.merchant, shop.key);
    assert CaseEvolves(db.cases[0], Turn(db, a, now).cases[0]);
  }

  lemma PairEnds(db: Db, x: Arrival, y: Arrival, shop: Shop, id: string)
    requires Core(db) && Pending(db, shop) && AllAbout([x, y], shop.merchant, id)
    requires TakenUp(x.payload) && x.payload.externalOrderId == shop.key && !TakenUp(y.payload)
    ensures PaymentStatusOf(HandleInTurn(db, [y, x], NOON), shop.merchant, id) == Some(PayCaptured)
    ensures PaymentStatusOf(HandleInTurn(db, [x, y], NOON), shop.merchant, id)
      == Some(NextPaymentStatus(Some(PayCaptured), MappedStatus(y.payload.status)))
  {
    assert AboutPayment([x, y][0], shop.merchant, id) && AboutPayment([x, y][1], shop.merchant, id);
    TwoInTurn(db, x, y);
    TwoInTurn(db, y, x);
    SettledSecond(db, x, y, shop, id);
    SettledFirst(db, x, y, shop, id);
  }

  lemma SettledSecond(db: Db, x: Arrival, y: Arrival, shop: Shop, id: string)
    requires Core(db) && Pending(db, shop) && AboutPayment(x, shop.merchant, id)
    requires TakenUp(x.payload) && x.payload.externalOrderId == shop.key && !TakenUp(y.payload)
    ensures PaymentStatusOf(Turn(Turn(db, y, 0), x, 0), shop.merchant, id) == Some(PayCaptured)
  {
    TurnIsSound(db, y, 0);
    IdleTurnKeepsPending(db, y, 0, shop);
    SuccessNow(Turn(db, y, 0), x, shop, id);
  }

  lemma SettledFirst(db: Db, x: Arrival, y: Arrival, shop: Shop, id: string)
    requires Core(db) && Pending(db, shop)
    requires AboutPayment(x, shop.merchant, id) && AboutPayment(y, shop.merchant, id)
    requires TakenUp(x.payload) && x.payload.externalOrderId == shop.key && !TakenUp(y.payload)
    ensures PaymentStatusOf(Turn(Turn(db, x, 0), y, 0), shop.merchant, id)
      == Some(NextPaymentStatus(Some(PayCaptured), MappedStatus(y.payload.status)))
  {
    SuccessNow(db, x, shop, id);
    TurnMovesPayment(Turn(db, x, 0), y, 0, shop.merchant, id);
  }

  const SHOP := Shop(0, "o", "INR", "")
  const PAID_ORDER := Arrival(0, SuccessEvent(SHOP, "pp", "order.paid", "authorized"))
  const AUTHORIZED := Arrival(0, SuccessEvent(SHOP, "pp", "payment.authorized", "authorized"))

  lemma PairAlike(x: Arrival, y: Arrival, m: nat, id: string)
    requires AboutPayment(x, m, id) && AboutPayment(y, m, id)
    requires MappedStatus(x.payload.status) == MappedStatus(y.payload.status)
    ensures AllEqual(Reports([x, y], m, id))
  {
    ReportsSnoc([], x, m, id);
    ReportsSnoc([x], y, m, id);
    assert [] + [x] == [x] && [x] + [y] == [x, y];
  }

  /** Two events that both report AUTHORIZED leave the payment CAPTURED in one order and AUTHORIZED in the other. */
  lemma AlikeReportsDifferentEnds()
    ensures exists db ::
      && Reached(db) && PaymentStatusOf(db, 0, "pp").None? && AllEqual(Reports([AUTHORIZED, PAID_ORDER], 0, "pp"))
      && PaymentStatusOf(HandleInTurn(db, [AUTHORIZED, PAID_ORDER], NOON), 0, "pp") == Some(PayCaptured)
      && PaymentStatusOf(HandleInTurn(db, [PAID_ORDER, AUTHORIZED], NOON), 0, "pp") == Some(PayAuthorized)
  {
    var db := ReachPending(SHOP, "pp");
    StatusTexts();
    PairAlike(AUTHORIZED, PAID_ORDER, 0, "pp");
    PairEnds(db, PAID_ORDER, AUTHORIZED, SHOP, "pp");
  }
}
