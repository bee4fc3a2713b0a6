/** Status guards of order and payment synchronisation (orchestration/services/order_payment_sync_service.py). */
module OrderPaymentSync {
  import opened Domain

  /** The status an order has after an event; a PAID order never moves. */
  function NextOrderStatus(current: Option<OrderStatus>, isCaptured: bool): OrderStatus {
    if current == Some(OrderPaid) || isCaptured then OrderPaid else OrderAttempted
  }

  /** The status a payment has after an event; only CAPTURED to FAILED is refused. */
  function NextPaymentStatus(current: Option<PaymentStatus>, mapped: PaymentStatus): PaymentStatus {
    if current == Some(PayCaptured) && mapped == PayFailed then PayCaptured else mapped
  }

  function FinalOrder(events: seq<bool>): OrderStatus
    requires events != []
  {
    var n := |events| - 1;
    NextOrderStatus(if n == 0 then None else Some(FinalOrder(events[..n])), events[n])
  }

  function FinalPayment(events: seq<PaymentStatus>): PaymentStatus
    requires events != []
  {
    var n := |events| - 1;
    NextPaymentStatus(if n == 0 then None else Some(FinalPayment(events[..n])), events[n])
  }

  lemma {:induction false} OrderPaidExactlyWhenCaptured(events: seq<bool>)
    requires events != []
    ensures FinalOrder(events) == if true in events then OrderPaid else OrderAttempted
  {
    var n := |events| - 1;
    assert events == events[..n] + [events[n]];
    if n > 0 {
      OrderPaidExactlyWhenCaptured(events[..n]);
    }
  }

  /** The final order status does not depend on the order in which events arrive. */
  lemma OrderStatusOrderIndependent(a: seq<bool>, b: seq<bool>)
    requires a != [] && b != [] && multiset(a) == multiset(b)
    ensures FinalOrder(a) == FinalOrder(b)
  {
    OrderPaidExactlyWhenCaptured(a);
    OrderPaidExactlyWhenCaptured(b);
    assert true in a <==> true in multiset(a);
    assert true in b <==> true in multiset(b);
  }

  // ---- Payments ----

  predicate OnlyCapturedOrFailed(events: seq<PaymentStatus>) {
    forall e | e in events :: e in {PayCaptured, PayFailed}
  }

  predicate AllEqual(events: seq<PaymentStatus>) {
    forall d, e | d in events && e in events :: d == e
  }

  ghost predicate OrderIndependent(events: seq<PaymentStatus>)
    requires events != []
  {
    forall p: seq<PaymentStatus> | p != [] && multiset(p) == multiset(events) :: FinalPayment(p) == FinalPayment(events)
  }

  lemma LastWins(events: seq<PaymentStatus>)
    requires events != [] && events[|events| - 1] != PayFailed
    ensures FinalPayment(events) == events[|events| - 1]
  {
  }

  lemma {:induction false} FailedWinsWithoutCapture(events: seq<PaymentStatus>)
    requires events != []
    ensures FinalPayment(events) in events
    ensures PayCaptured !in events && events[|events| - 1] == PayFailed ==> FinalPayment(events) == PayFailed
  {
    var n := |events| - 1;
    if n > 0 {
      FailedWinsWithoutCapture(events[..n]);
    }
  }

  lemma {:induction false} CaptureWins(events: seq<PaymentStatus>)
    requires events != [] && OnlyCapturedOrFailed(events)
    ensures FinalPayment(events) == if PayCaptured in events then PayCaptured else PayFailed
  {
    var n := |events| - 1;
    assert events == events[..n] + [events[n]];
    assert events[n] in events && forall e | e in events[..n] :: e in events;
    if n > 0 {
      CaptureWins(events[..n]);
    }
  }

  /** The same events with the one at `i` delivered last. */
  function DeliverLast(events: seq<PaymentStatus>, i: nat): (p: seq<PaymentStatus>)
    requires i < |events|
    ensures multiset(p) == multiset(events) && p != [] && p[|p| - 1] == events[i]
  {
    assert events == events[..i] + [events[i]] + events[i + 1..];
    events[..i] + events[i + 1..] + [events[i]]
  }

  lemma SameMembers(p: seq<PaymentStatus>, events: seq<PaymentStatus>)
    requires multiset(p) == multiset(events)
    ensures forall e :: e in p <==> e in events
  {
    forall e ensures e in p <==> e in events {
      assert e in p <==> e in multiset(p);
      assert e in events <==> e in multiset(events);
    }
  }

  /** Two deliveries that end in different statuses, when some event is neither a capture nor a failure. */
  lemma DistinctOutcomes(events: seq<PaymentStatus>, i: nat, j: nat)
    requires i < |events| && j < |events| && events[i] != events[j]
    requires events[i] !in {PayCaptured, PayFailed}
    requires events[j] == PayFailed ==> PayCaptured !in events
    ensures !OrderIndependent(events)
  {
    var p, q := DeliverLast(events, i), DeliverLast(events, j);
    LastWins(p);
    if events[j] == PayFailed {
      SameMembers(q, events);
      FailedWinsWithoutCapture(q);
    } else {
      LastWins(q);
    }
  }

  /** Exactly which batches of payment events may arrive in any order. */
  lemma PaymentOrderIndependence(events: seq<PaymentStatus>)
    requires events != []
    ensures OrderIndependent(events) <==> OnlyCapturedOrFailed(events) || AllEqual(events)
  {
    if OnlyCapturedOrFailed(events) || AllEqual(events) {
      forall p: seq<PaymentStatus> | p != [] && multiset(p) == multiset(events)
        ensures FinalPayment(p) == FinalPayment(events)
      {
        SameMembers(p, events);
        FailedWinsWithoutCapture(p);
        FailedWinsWithoutCapture(events);
        if OnlyCapturedOrFailed(events) {
          CaptureWins(p);
          CaptureWins(events);
        }
      }
    } else {
      var x :| x in events && x !in {PayCaptured, PayFailed};
      var i :| 0 <= i < |events| && events[i] == x;
      if y :| y in events && y != x && y != PayFailed {
        var j :| 0 <= j < |events| && events[j] == y;
        DistinctOutcomes(events, i, j);
      } else {
        var d, e :| d in events && e in events && d != e;
        var j :| 0 <= j < |events| && events[j] == PayFailed;
        DistinctOutcomes(events, i, j);
      }
    }
  }
}
