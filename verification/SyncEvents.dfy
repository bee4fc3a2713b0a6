/** Order and payment rows after any sequence of synchronised events, and in which orders those may arrive. */
module SyncEvents {
  import opened Domain
  import opened Tables
  import opened Services
  import opened Sync = OrderPaymentSync

  datatype Arrival = Arrival(merchant: nat, payload: Payload)

  function SyncInTurn(db: Db, arrivals: seq<Arrival>): Db {
    if arrivals == [] then db
    else
      var n := |arrivals| - 1;
      SyncAll(SyncInTurn(db, arrivals[..n]), arrivals[n].merchant, arrivals[n].payload, ReadsNow).0
  }

  predicate AboutOrder(a: Arrival, merchant: nat, key: string) {
    a.merchant == merchant && OrderKey(a.payload) == key
  }

  predicate AboutPayment(a: Arrival, merchant: nat, externalId: string) {
    a.merchant == merchant && a.payload.externalPaymentId == externalId
  }

  /** For each arrival about the order, whether it reports a capture. */
  function Captures(arrivals: seq<Arrival>, merchant: nat, key: string): seq<bool> {
    if arrivals == [] then []
    else
      var n := |arrivals| - 1;
      Captures(arrivals[..n], merchant, key)
      + if AboutOrder(arrivals[n], merchant, key) then [IsCapturedEvent(arrivals[n].payload)] else []
  }

  /** For each arrival about the payment, the status it reports. */
  function Reports(arrivals: seq<Arrival>, merchant: nat, externalId: string): seq<PaymentStatus> {
    if arrivals == [] then []
    else
      var n := |arrivals| - 1;
      Reports(arrivals[..n], merchant, externalId)
      + if AboutPayment(arrivals[n], merchant, externalId) then [MappedStatus(arrivals[n].payload.status)] else []
  }

  // ---- One event ----

  lemma {:induction false} FindOrderStable(orders: seq<Order>, i: nat, o: Order, merchant: nat, key: string)
    requires i < |orders| && o.merchant == orders[i].merchant && o.externalId == orders[i].externalId
    ensures FindOrder(orders[i := o], merchant, key) == FindOrder(orders, merchant, key)
  {
    var n := |orders| - 1;
    if i < n {
      assert orders[i := o][..n] == orders[..n][i := o];
      FindOrderStable(orders[..n], i, o, merchant, key);
    } else {
      assert orders[i := o][..n] == orders[..n];
    }
  }

  lemma {:induction false} FindPaymentStable(payments: seq<Payment>, i: nat, o: Payment, merchant: nat, id: string)
    requires i < |payments| && o.merchant == payments[i].merchant && o.externalId == payments[i].externalId
    ensures FindPayment(payments[i := o], merchant, id) == FindPayment(payments, merchant, id)
  {
    var n := |payments| - 1;
    if i < n {
      assert payments[i := o][..n] == payments[..n][i := o];
      FindPaymentStable(payments[..n], i, o, merchant, id);
    } else {
      assert payments[i := o][..n] == payments[..n];
    }
  }

  function OrderStatusOf(db: Db, merchant: nat, key: string): Option<OrderStatus> {
    FindOrderFound(db.orders, merchant, key);
    match FindOrder(db.orders, merchant, key)
    case None => None
    case Some(i) => Some(db.orders[i].status)
  }

  function PaymentStatusOf(db: Db, merchant: nat, id: string): Option<PaymentStatus> {
    FindPaymentFound(db.payments, merchant, id);
    match FindPayment(db.payments, merchant, id)
    case None => None
    case Some(i) => Some(db.payments[i].status)
  }

  /** An event moves the order it is about, by the guarded rule, and no other. */
  lemma SyncOrderMoves(db: Db, merchant: nat, customer: Option<nat>, p: Payload, m: nat, key: string)
    ensures OrderStatusOf(SyncOrder(db, merchant, customer, p).0, m, key) ==
      if m == merchant && key == OrderKey(p)
      then Some(NextOrderStatus(OrderStatusOf(db, m, key), IsCapturedEvent(p)))
      else OrderStatusOf(db, m, key)
  {
    FindOrderFound(db.orders, merchant, OrderKey(p));
    FindOrderFound(db.orders, m, key);
    var orders := SyncOrder(db, merchant, customer, p).0.orders;
    match FindOrder(db.orders, merchant, OrderKey(p)) {
      case None => assert orders[..|db.orders|] == db.orders;
      case Some(i) => FindOrderStable(db.orders, i, orders[i], m, key);
    }
  }

  lemma SyncPaymentMoves(db: Db, merchant: nat, order: nat, p: Payload, m: nat, id: string)
    ensures PaymentStatusOf(SyncPayment(db, merchant, order, p).0, m, id) ==
      if m == merchant && id == p.externalPaymentId
      then Some(NextPaymentStatus(PaymentStatusOf(db, m, id), MappedStatus(p.status)))
      else PaymentStatusOf(db, m, id)
  {
    FindPaymentFound(db.payments, merchant, p.externalPaymentId);
    FindPaymentFound(db.payments, m, id);
    var payments := SyncPayment(db, merchant, order, p).0.payments;
    match FindPayment(db.payments, merchant, p.externalPaymentId) {
      case None => assert payments[..|db.payments|] == db.payments;
      case Some(i) => FindPaymentStable(db.payments, i, payments[i], m, id);
    }
  }

  lemma SyncAllMoves(db: Db, merchant: nat, p: Payload, read: CustomerRead, m: nat, key: string, id: string)
    ensures OrderStatusOf(SyncAll(db, merchant, p, read).0, m, key) ==
      if m == merchant && key == OrderKey(p)
      then Some(NextOrderStatus(OrderStatusOf(db, m, key), IsCapturedEvent(p)))
      else OrderStatusOf(db, m, key)
    ensures PaymentStatusOf(SyncAll(db, merchant, p, read).0, m, id) ==
      if m == merchant && id == p.externalPaymentId
      then Some(NextPaymentStatus(PaymentStatusOf(db, m, id), MappedStatus(p.status)))
      else PaymentStatusOf(db, m, id)
  {
    var (db1, customer) := SyncCustomer(db, merchant, p, read);
    var (db2, order) := SyncOrder(db1, merchant, customer, p);
    var db3 := SyncPayment(db2, merchant, order, p).0;
    TablesTouched(db, db1, db2, db3, merchant, customer, order, p, read);
    SyncOrderMoves(db1, merchant, customer, p, m, key);
    SyncPaymentMoves(db2, merchant, order, p, m, id);
    assert OrderStatusOf(db3, m, key) == OrderStatusOf(db2, m, key);
    assert OrderStatusOf(db1, m, key) == OrderStatusOf(db, m, key);
    assert PaymentStatusOf(db2, m, id) == PaymentStatusOf(db, m, id);
  }

  lemma TablesTouched(db: Db, db1: Db, db2: Db, db3: Db, merchant: nat, customer: Option<nat>, order: nat, p: Payload,
    read: CustomerRead)
    requires (db1, customer) == SyncCustomer(db, merchant, p, read)
    requires (db2, order) == SyncOrder(db1, merchant, customer, p)
    requires db3 == SyncPayment(db2, merchant, order, p).0
    ensures db1.orders == db.orders && db3.orders == db2.orders && db2.payments == db.payments
  {
    FindCustomerFound(db.customers, merchant, p.email, p.phone);
    FindOrderFound(db1.orders, merchant, OrderKey(p));
    FindPaymentFound(db2.payments, merchant, p.externalPaymentId);
  }

  // ---- Where rows are found after an event ----

  /** A row found before is found at the same place, and a new one at the end. */
  lemma SyncedRows(db: Db, m: nat, p: Payload, read: CustomerRead, key: string)
    ensures var synced := SyncAll(db, m, p, read).0;
      && (FindOrder(synced.orders, m, key) == FindOrder(db.orders, m, key)
          || (FindOrder(db.orders, m, key).None? && FindOrder(synced.orders, m, key) == Some(|db.orders|)))
      && FindPayment(synced.payments, m, p.externalPaymentId) ==
           (match FindPayment(db.payments, m, p.externalPaymentId)
            case Some(i) => Some(i) case None => Some(|db.payments|))
  {
    SyncAllTouches(db, m, p, read);
    var (db1, customer) := SyncCustomer(db, m, p, read);
    var (db2, order) := SyncOrder(db1, m, customer, p);
    OrderAfterSync(db1, m, customer, p, key);
    PaymentAfterSync(db2, m, order, p);
    SyncPaymentKeepsOrders(db2, m, order, p);
  }

  lemma SyncPaymentKeepsOrders(db: Db, m: nat, order: nat, p: Payload)
    ensures SyncPayment(db, m, order, p).0.orders == db.orders
  {
    FindPaymentFound(db.payments, m, p.externalPaymentId);
  }

  lemma OrderAfterSync(db: Db, m: nat, customer: Option<nat>, p: Payload, key: string)
    ensures var orders := SyncOrder(db, m, customer, p).0.orders;
      || FindOrder(orders, m, key) == FindOrder(db.orders, m, key)
      || (FindOrder(db.orders, m, key).None? && FindOrder(orders, m, key) == Some(|db.orders|))
  {
    FindOrderFound(db.orders, m, OrderKey(p));
    var orders := SyncOrder(db, m, customer, p).0.orders;
    match FindOrder(db.orders, m, OrderKey(p)) {
      case None => assert orders[..|db.orders|] == db.orders;
      case Some(i) => FindOrderStable(db.orders, i, orders[i], m, key);
    }
  }

  lemma PaymentAfterSync(db: Db, m: nat, order: nat, p: Payload)
    ensures FindPayment(SyncPayment(db, m, order, p).0.payments, m, p.externalPaymentId) ==
      match FindPayment(db.payments, m, p.externalPaymentId) case Some(i) => Some(i) case None => Some(|db.payments|)
  {
    FindPaymentFound(db.payments, m, p.externalPaymentId);
    var payments := SyncPayment(db, m, order, p).0.payments;
    match FindPayment(db.payments, m, p.externalPaymentId) {
      case None => assert payments[..|db.payments|] == db.payments;
      case Some(i) => FindPaymentStable(db.payments, i, payments[i], m, p.externalPaymentId);
    }
  }

  // ---- Any sequence of events ----

  lemma OrderStep(captures: seq<bool>, isCaptured: bool)
    ensures FinalOrder(captures + [isCaptured])
      == NextOrderStatus(if captures == [] then None else Some(FinalOrder(captures)), isCaptured)
  {
    assert (captures + [isCaptured])[..|captures|] == captures;
  }

  lemma PaymentStep(reports: seq<PaymentStatus>, mapped: PaymentStatus)
    ensures FinalPayment(reports + [mapped])
      == NextPaymentStatus(if reports == [] then None else Some(FinalPayment(reports)), mapped)
  {
    assert (reports + [mapped])[..|reports|] == reports;
  }

  /** From a store that does not know the order, its status after any events is the fold over the events about it. */
  lemma {:induction false} OrderAfterEvents(db: Db, arrivals: seq<Arrival>, merchant: nat, key: string)
    requires OrderStatusOf(db, merchant, key).None?
    ensures var captures := Captures(arrivals, merchant, key);
      OrderStatusOf(SyncInTurn(db, arrivals), merchant, key) ==
        if captures == [] then None else Some(FinalOrder(captures))
  {
    if arrivals != [] {
      var n := |arrivals| - 1;
      OrderAfterEvents(db, arrivals[..n], merchant, key);
      var before := Captures(arrivals[..n], merchant, key);
      SyncAllMoves(
        SyncInTurn(db, arrivals[..n]), arrivals[n].merchant, arrivals[n].payload, ReadsNow, merchant, key, "");
      if AboutOrder(arrivals[n], merchant, key) {
        OrderStep(before, IsCapturedEvent(arrivals[n].payload));
        assert Captures(arrivals, merchant, key) == before + [IsCapturedEvent(arrivals[n].payload)];
      } else {
        assert Captures(arrivals, merchant, key) == before;
      }
    }
  }

  lemma {:induction false} PaymentAfterEvents(db: Db, arrivals: seq<Arrival>, merchant: nat, id: string)
    requires PaymentStatusOf(db, merchant, id).None?
    ensures var reports := Reports(arrivals, merchant, id);
      PaymentStatusOf(SyncInTurn(db, arrivals), merchant, id) ==
        if reports == [] then None else Some(FinalPayment(reports))
  {
    if arrivals != [] {
      var n := |arrivals| - 1;
      PaymentAfterEvents(db, arrivals[..n], merchant, id);
      var before := Reports(arrivals[..n], merchant, id);
      SyncAllMoves(
        SyncInTurn(db, arrivals[..n]), arrivals[n].merchant, arrivals[n].payload, ReadsNow, merchant, "", id);
      if AboutPayment(arrivals[n], merchant, id) {
        PaymentStep(before, MappedStatus(arrivals[n].payload.status));
        assert Reports(arrivals, merchant, id) == before + [MappedStatus(arrivals[n].payload.status)];
      } else {
        assert Reports(arrivals, merchant, id) == before;
      }
    }
  }

  // ---- Reorderings ----

  lemma {:induction false} CapturesMembers(arrivals: seq<Arrival>, merchant: nat, key: string)
    ensures Captures(arrivals, merchant, key) != [] <==> exists a :: a in arrivals && AboutOrder(a, merchant, key)
    ensures true in Captures(arrivals, merchant, key) <==>
      exists a :: a in arrivals && AboutOrder(a, merchant, key) && IsCapturedEvent(a.payload)
  {
    if arrivals != [] {
      var n := |arrivals| - 1;
      assert arrivals == arrivals[..n] + [arrivals[n]];
      CapturesMembers(arrivals[..n], merchant, key);
    }
  }

  /** An order first seen in a batch of events ends PAID exactly when one of them is a success event about it,
      ATTEMPTED when there are others only; so every reordering of the batch leaves it with the same status. */
  lemma OrderStatusIgnoresArrivalOrder(db: Db, a: seq<Arrival>, b: seq<Arrival>, merchant: nat, key: string)
    requires OrderStatusOf(db, merchant, key).None? && multiset(a) == multiset(b)
    ensures OrderStatusOf(SyncInTurn(db, a), merchant, key) == OrderStatusOf(SyncInTurn(db, b), merchant, key)
    ensures OrderStatusOf(SyncInTurn(db, a), merchant, key) == Some(OrderPaid) <==>
      exists x :: x in a && AboutOrder(x, merchant, key) && IsCapturedEvent(x.payload)
    ensures OrderStatusOf(SyncInTurn(db, a), merchant, key).None? <==>
      forall x | x in a :: !AboutOrder(x, merchant, key)
  {
    OrderAfterEvents(db, a, merchant, key);
    OrderAfterEvents(db, b, merchant, key);
    CapturesMembers(a, merchant, key);
    CapturesMembers(b, merchant, key);
    assert forall x :: x in a <==> x in multiset(a);
    assert forall x :: x in b <==> x in multiset(b);
    if Captures(a, merchant, key) != [] {
      OrderPaidExactlyWhenCaptured(Captures(a, merchant, key));
      OrderPaidExactlyWhenCaptured(Captures(b, merchant, key));
    }
  }

  lemma ReportsLast(b: seq<Arrival>, merchant: nat, id: string)
    requires b != []
    ensures var n := |b| - 1;
      multiset(Reports(b, merchant, id)) == multiset(Reports(b[..n], merchant, id))
        + if AboutPayment(b[n], merchant, id) then multiset{MappedStatus(b[n].payload.status)} else multiset{}
  {
  }

  lemma DropBoth(b: seq<Arrival>, i: nat)
    requires i < |b| - 1
    ensures var n, rest := |b| - 1, b[..i] + b[i + 1..];
      rest[..|rest| - 1] == b[..n][..i] + b[..n][i + 1..] && rest[|rest| - 1] == b[n]
  {
  }

  lemma {:induction false} ReportsSplit(b: seq<Arrival>, i: nat, merchant: nat, id: string)
    requires i < |b|
    ensures multiset(Reports(b, merchant, id)) == multiset(Reports(b[..i] + b[i + 1..], merchant, id))
      + if AboutPayment(b[i], merchant, id) then multiset{MappedStatus(b[i].payload.status)} else multiset{}
  {
    var n := |b| - 1;
    ReportsLast(b, merchant, id);
    if i == n {
      assert b[..i] + b[i + 1..] == b[..n];
    } else {
      var rest := b[..i] + b[i + 1..];
      DropBoth(b, i);
      ReportsLast(rest, merchant, id);
      ReportsSplit(b[..n], i, merchant, id);
    }
  }

  /** Where the last element of `a` sits in a reordering of it. */
  lemma PositionOf(a: seq<Arrival>, b: seq<Arrival>) returns (i: nat)
    requires multiset(a) == multiset(b) && a != []
    ensures i < |b| && b[i] == a[|a| - 1] && multiset(a[..|a| - 1]) == multiset(b[..i] + b[i + 1..])
  {
    var n := |a| - 1;
    assert a == a[..n] + [a[n]];
    assert a[n] in multiset(b);
    i :| 0 <= i < |b| && b[i] == a[n];
    assert b == b[..i] + [b[i]] + b[i + 1..];
    assert multiset(a[..n]) == multiset(a) - multiset{a[n]};
    assert multiset(b[..i] + b[i + 1..]) == multiset(b) - multiset{b[i]};
  }

  lemma {:induction false} ReorderedReports(a: seq<Arrival>, b: seq<Arrival>, merchant: nat, id: string)
    requires multiset(a) == multiset(b)
    ensures multiset(Reports(a, merchant, id)) == multiset(Reports(b, merchant, id))
    decreases |a|
  {
    assert |multiset(a)| == |a| && |multiset(b)| == |b|;
    if a != [] {
      var n := |a| - 1;
      var i := PositionOf(a, b);
      ReportsSplit(a, n, merchant, id);
      ReportsSplit(b, i, merchant, id);
      assert a[..n] + a[n + 1..] == a[..n];
      ReorderedReports(a[..n], b[..i] + b[i + 1..], merchant, id);
    }
  }

  /** A payment about which a batch holds captures and failures only, or one status only, ends with the same status
      under every reordering of the whole batch. */
  lemma PaymentStatusIgnoresArrivalOrder(db: Db, a: seq<Arrival>, b: seq<Arrival>, merchant: nat, id: string)
    requires PaymentStatusOf(db, merchant, id).None? && multiset(a) == multiset(b)
    requires var reports := Reports(a, merchant, id); OnlyCapturedOrFailed(reports) || AllEqual(reports)
    ensures PaymentStatusOf(SyncInTurn(db, a), merchant, id) == PaymentStatusOf(SyncInTurn(db, b), merchant, id)
  {
    PaymentAfterEvents(db, a, merchant, id);
    PaymentAfterEvents(db, b, merchant, id);
    ReorderedReports(a, b, merchant, id);
    var reports, others := Reports(a, merchant, id), Reports(b, merchant, id);
    assert |multiset(reports)| == |reports| && |multiset(others)| == |others|;
    if reports != [] {
      PaymentOrderIndependence(reports);
      assert FinalPayment(others) == FinalPayment(reports);
    }
  }
}
