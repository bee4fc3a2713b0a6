/**
 The order in which events' tasks run. A task synchronises, and then may settle a case with the payment, which forces
 the payment to CAPTURED whatever the event reported.
 */
module TaskOrder {
  import opened Domain
  import opened Tables
  import opened Services
  import opened Runs
  import opened Interleaving
  import opened Sync = OrderPaymentSync
  import opened SyncEvents
  import opened WebhookRecovery
  import opened Scenarios

  // ---- Tasks in turn ----

  /** The tasks of the events, one after the other, each at its own time. */
  function HandleInTurn(db: Db, arrivals: seq<Arrival>, clock: nat -> int): Db {
    if arrivals == [] then db
    else
      var n := |arrivals| - 1;
      Turn(HandleInTurn(db, arrivals[..n], clock), arrivals[n], clock(n))
  }

  function Turn(db: Db, a: Arrival, now: int): Db {
    Ending(db, HandleEvent(db, a.merchant, a.payload, now, NOTHING_MISSED, NO_ID))
  }

  lemma TurnIsSound(db: Db, a: Arrival, now: int)
    requires Core(db)
    ensures Core(Turn(db, a, now)) && HandleEvent(db, a.merchant, a.payload, now, NOTHING_MISSED, NO_ID).Commit?
  {
    FreshHandlingCommits(db, a.merchant, a.payload, now, NO_ID);
    CoreHandled(db, a.merchant, a.payload, now, NOTHING_MISSED, NO_ID);
  }

  lemma {:induction false} TurnsAreSound(db: Db, arrivals: seq<Arrival>, clock: nat -> int)
    requires Core(db)
    ensures Core(HandleInTurn(db, arrivals, clock))
  {
    if arrivals != [] {
      var n := |arrivals| - 1;
      TurnsAreSound(db, arrivals[..n], clock);
      TurnIsSound(HandleInTurn(db, arrivals[..n], clock), arrivals[n], clock(n));
    }
  }

  lemma {:induction false} TurnsJoin(db: Db, a: seq<Arrival>, b: seq<Arrival>)
    ensures HandleInTurn(db, a + b, NOON) == HandleInTurn(HandleInTurn(db, a, NOON), b, NOON)
    decreases |b|
  {
    if b == [] {
      assert a + b == a;
    } else {
      var n := |b| - 1;
      assert (a + b)[..|a + b| - 1] == a + b[..n];
      TurnsJoin(db, a, b[..n]);
    }
  }

  const NOON: nat -> int := (n: nat) => 0

  lemma TurnMovesPayment(db: Db, a: Arrival, now: int, m: nat, id: string)
    requires Core(db)
    ensures PaymentStatusOf(Turn(db, a, now), m, id) ==
      if !AboutPayment(a, m, id) then PaymentStatusOf(db, m, id)
      else if CaseFor(db, m, a.payload).Some? then Some(PayCaptured)
      else Some(NextPaymentStatus(PaymentStatusOf(db, m, id), MappedStatus(a.payload.status)))
  {
    TurnIsSound(db, a, now);
    HandlingMovesPayment(db, a.merchant, a.payload, now, NOTHING_MISSED, NO_ID, m, id);
  }

  // ---- Orders ----

  lemma {:induction false} OrderAfterTasks(db: Db, arrivals: seq<Arrival>, clock: nat -> int, m: nat, key: string)
    requires Core(db)
    ensures OrderStatusOf(HandleInTurn(db, arrivals, clock), m, key) == OrderStatusOf(SyncInTurn(db, arrivals), m, key)
  {
    if arrivals != [] {
      var n := |arrivals| - 1;
      var a := arrivals[n];
      OrderAfterTasks(db, arrivals[..n], clock, m, key);
      TurnsAreSound(db, arrivals[..n], clock);
      var before := HandleInTurn(db, arrivals[..n], clock);
      TurnIsSound(before, a, clock(n));
      HandlingMovesOrder(before, a.merchant, a.payload, clock(n), NOTHING_MISSED, NO_ID, m, key);
      SyncAllMoves(before, a.merchant, a.payload, ReadsNow, m, key, "");
      SyncAllMoves(SyncInTurn(db, arrivals[..n]), a.merchant, a.payload, ReadsNow, m, key, "");
    }
  }

  /** Whatever else the tasks do, a new order's status is the same for every order of arrival. */
  lemma OrderStatusIgnoresTaskOrder(
    db: Db, a: seq<Arrival>, b: seq<Arrival>, clockA: nat -> int, clockB: nat -> int, m: nat, key: string)
    requires Core(db) && OrderStatusOf(db, m, key).None? && multiset(a) == multiset(b)
    ensures OrderStatusOf(HandleInTurn(db, a, clockA), m, key) == OrderStatusOf(HandleInTurn(db, b, clockB), m, key)
  {
    OrderAfterTasks(db, a, clockA, m, key);
    OrderAfterTasks(db, b, clockB, m, key);
    OrderStatusIgnoresArrivalOrder(db, a, b, m, key);
  }

  // ---- When tasks only fold the reports ----

  /** A success event of a named order reports a captured payment, so settling changes nothing it reported. */
  predicate Honest(p: Payload) {
    TakenUp(p) && p.externalOrderId != "" ==> MappedStatus(p.status) == PayCaptured
  }

  predicate NothingOpen(db: Db) {
    forall i | 0 <= i < |db.cases| ::
      db.cases[i].status !in {APPROVED, EXECUTING, WAITING_EXTERNAL, VERIFYING, ESCALATED}
  }

  /** Tasks never make a case open to settlement. */
  lemma TurnKeepsShut(db: Db, a: Arrival, now: int)
    requires Core(db) && NothingOpen(db)
    ensures NothingOpen(Turn(db, a, now))
  {
    HandlingOpens(db, a.merchant, a.payload, now, NOTHING_MISSED, NO_ID);
    var after := Turn(db, a, now);
    forall i | 0 <= i < |after.cases|
      ensures after.cases[i].status !in {APPROVED, EXECUTING, WAITING_EXTERNAL, VERIFYING, ESCALATED}
    {
      if i < |db.cases| {
        HandlingMovesCase(db, a.merchant, a.payload, now, NOTHING_MISSED, NO_ID, i);
      }
    }
  }

  lemma NoCaseFor(db: Db, m: nat, p: Payload)
    requires Core(db)
    ensures NothingOpen(db) || p.externalOrderId == "" ==> CaseFor(db, m, p).None?
  {
    FindOrderFound(db.orders, m, p.externalOrderId);
    var order := FindOrder(db.orders, m, p.externalOrderId);
    if order.Some? { FirstVerifiableFound(db.cases, order.value); }
  }

  predicate AllHonest(arrivals: seq<Arrival>, m: nat, id: string) {
    forall a | a in arrivals && AboutPayment(a, m, id) :: Honest(a.payload)
  }

  lemma TurnFolds(db: Db, a: Arrival, now: int, m: nat, id: string)
    requires Core(db) && (NothingOpen(db) || !AboutPayment(a, m, id) || Honest(a.payload))
    ensures Core(Turn(db, a, now)) && (NothingOpen(db) ==> NothingOpen(Turn(db, a, now)))
    ensures PaymentStatusOf(Turn(db, a, now), m, id) ==
      if AboutPayment(a, m, id)
      then Some(NextPaymentStatus(PaymentStatusOf(db, m, id), MappedStatus(a.payload.status)))
      else PaymentStatusOf(db, m, id)
  {
    TurnIsSound(db, a, now);
    TurnMovesPayment(db, a, now, m, id);
    NoCaseFor(db, m, a.payload);
    if NothingOpen(db) { TurnKeepsShut(db, a, now); }
  }

  function Folded(reports: seq<PaymentStatus>): Option<PaymentStatus> {
    if reports == [] then None else Some(FinalPayment(reports))
  }

  lemma FoldedLast(arrivals: seq<Arrival>, m: nat, id: string)
    requires arrivals != []
    ensures var n := |arrivals| - 1;
      var earlier := Folded(Reports(arrivals[..n], m, id));
      && Folded(Reports(arrivals, m, id)) ==
           (if AboutPayment(arrivals[n], m, id)
            then Some(NextPaymentStatus(earlier, MappedStatus(arrivals[n].payload.status))) else earlier)
      && (AllHonest(arrivals, m, id) ==>
            AllHonest(arrivals[..n], m, id) && (AboutPayment(arrivals[n], m, id) ==> Honest(arrivals[n].payload)))
  {
    var n := |arrivals| - 1;
    assert arrivals == arrivals[..n] + [arrivals[n]];
    ReportsSnoc(arrivals[..n], arrivals[n], m, id);
    PaymentStep(Reports(arrivals[..n], m, id), MappedStatus(arrivals[n].payload.status));
    assert Reports(arrivals[..n], m, id) + [] == Reports(arrivals[..n], m, id);
  }

  /** Without an open case, or with honest events, a payment's status after the tasks is the fold over its reports. */
  lemma {:induction false} PaymentAfterTasks(db: Db, arrivals: seq<Arrival>, clock: nat -> int, m: nat, id: string)
    requires Core(db) && PaymentStatusOf(db, m, id).None?
    requires NothingOpen(db) || AllHonest(arrivals, m, id)
    ensures var after := HandleInTurn(db, arrivals, clock);
      && Core(after) && (NothingOpen(db) ==> NothingOpen(after))
      && PaymentStatusOf(after, m, id) == Folded(Reports(arrivals, m, id))
  {
    if arrivals != [] {
      var n := |arrivals| - 1;
      FoldedLast(arrivals, m, id);
      PaymentAfterTasks(db, arrivals[..n], clock, m, id);
      TurnFolds(HandleInTurn(db, arrivals[..n], clock), arrivals[n], clock(n), m, id);
    }
  }

  lemma TurnKeepsCapture(db: Db, a: Arrival, now: int, m: nat, id: string)
    requires Core(db)
    requires AboutPayment(a, m, id) ==> MappedStatus(a.payload.status) in {PayCaptured, PayFailed}
    requires
      || (AboutPayment(a, m, id) && MappedStatus(a.payload.status) == PayCaptured)
      || PaymentStatusOf(db, m, id) == Some(PayCaptured)
    ensures PaymentStatusOf(Turn(db, a, now), m, id) == Some(PayCaptured)
  {
    TurnMovesPayment(db, a, now, m, id);
  }

  lemma CapturedLast(arrivals: seq<Arrival>, m: nat, id: string)
    requires OnlyCapturedOrFailed(Reports(arrivals, m, id)) && PayCaptured in Reports(arrivals, m, id)
    ensures var n := |arrivals| - 1;
      var status := MappedStatus(arrivals[n].payload.status);
      && n >= 0 && OnlyCapturedOrFailed(Reports(arrivals[..n], m, id))
      && (AboutPayment(arrivals[n], m, id) ==> status in {PayCaptured, PayFailed})
      && (PayCaptured in Reports(arrivals[..n], m, id) || (AboutPayment(arrivals[n], m, id) && status == PayCaptured))
  {
    var n := |arrivals| - 1;
    var reports, earlier := Reports(arrivals, m, id), Reports(arrivals[..n], m, id);
    assert arrivals == arrivals[..n] + [arrivals[n]];
    ReportsSnoc(arrivals[..n], arrivals[n], m, id);
    assert forall e | e in earlier :: e in reports;
    if AboutPayment(arrivals[n], m, id) {
      assert reports[|reports| - 1] == MappedStatus(arrivals[n].payload.status);
      assert reports[|reports| - 1] in reports;
    }
  }

  /** Among captures and failures, honest or not, one capture decides. */
  lemma {:induction false} CaptureWinsOverTasks(db: Db, arrivals: seq<Arrival>, clock: nat -> int, m: nat, id: string)
    requires Core(db)
    requires OnlyCapturedOrFailed(Reports(arrivals, m, id)) && PayCaptured in Reports(arrivals, m, id)
    ensures PaymentStatusOf(HandleInTurn(db, arrivals, clock), m, id) == Some(PayCaptured)
  {
    var n := |arrivals| - 1;
    CapturedLast(arrivals, m, id);
    if PayCaptured in Reports(arrivals[..n], m, id) { CaptureWinsOverTasks(db, arrivals[..n], clock, m, id); }
    TurnsAreSound(db, arrivals[..n], clock);
    TurnKeepsCapture(HandleInTurn(db, arrivals[..n], clock), arrivals[n], clock(n), m, id);
  }

  // ---- The events about one payment ----

  function About(arrivals: seq<Arrival>, m: nat, id: string): seq<Arrival> {
    if arrivals == [] then []
    else
      var n := |arrivals| - 1;
      About(arrivals[..n], m, id) + if AboutPayment(arrivals[n], m, id) then [arrivals[n]] else []
  }

  lemma ReportsSnoc(arrivals: seq<Arrival>, a: Arrival, m: nat, id: string)
    ensures Reports(arrivals + [a], m, id)
      == Reports(arrivals, m, id) + if AboutPayment(a, m, id) then [MappedStatus(a.payload.status)] else []
  {
    assert (arrivals + [a])[..|arrivals|] == arrivals;
  }

  lemma {:induction false} AboutSays(arrivals: seq<Arrival>, m: nat, id: string)
    ensures Reports(About(arrivals, m, id), m, id) == Reports(arrivals, m, id)
    ensures forall a :: a in About(arrivals, m, id) <==> a in arrivals && AboutPayment(a, m, id)
  {
    if arrivals != [] {
      var n := |arrivals| - 1;
      var earlier := About(arrivals[..n], m, id);
      assert arrivals == arrivals[..n] + [arrivals[n]];
      AboutSays(arrivals[..n], m, id);
      if AboutPayment(arrivals[n], m, id) {
        assert About(arrivals, m, id) == earlier + [arrivals[n]];
        ReportsSnoc(earlier, arrivals[n], m, id);
      } else {
        assert About(arrivals, m, id) == earlier;
      }
    }
  }

  /** Whatever store that does not know the payment they meet, and whatever other events come between them, the tasks
      of these events leave the payment with the same status in every order. */
  ghost predicate OrderIrrelevant(events: seq<Arrival>, m: nat, id: string) {
    forall db, a, b, clockA, clockB |
      && Reached(db) && PaymentStatusOf(db, m, id).None?
      && multiset(a) == multiset(b) && multiset(About(a, m, id)) == multiset(events) ::
      PaymentStatusOf(HandleInTurn(db, a, clockA), m, id) == PaymentStatusOf(HandleInTurn(db, b, clockB), m, id)
  }

  /** Captures and failures with a capture among them; or one status only, and no success event that reports less. */
  predicate AnyOrderWillDo(events: seq<Arrival>, m: nat, id: string) {
    var reports := Reports(events, m, id);
    || (OnlyCapturedOrFailed(reports) && PayCaptured in reports)
    || (AllEqual(reports) && AllHonest(events, m, id))
  }

  // ---- Sufficient ----

  lemma SameAbout(a: seq<Arrival>, events: seq<Arrival>, m: nat, id: string)
    requires multiset(About(a, m, id)) == multiset(events)
    ensures multiset(Reports(a, m, id)) == multiset(Reports(events, m, id))
    ensures AllHonest(events, m, id) ==> AllHonest(a, m, id)
    ensures AnyOrderWillDo(events, m, id) ==> AnyOrderWillDo(a, m, id)
  {
    AboutSays(a, m, id);
    ReorderedReports(About(a, m, id), events, m, id);
    SameMembers(Reports(a, m, id), Reports(events, m, id));
    forall x | AllHonest(events, m, id) && x in a && AboutPayment(x, m, id) ensures Honest(x.payload) {
      assert x in About(a, m, id);
      assert x in multiset(events);
    }
  }

  lemma {:induction false} ReorderedAbout(a: seq<Arrival>, b: seq<Arrival>, m: nat, id: string)
    requires multiset(a) == multiset(b)
    ensures multiset(About(a, m, id)) == multiset(About(b, m, id))
    decreases |a|
  {
    assert |multiset(a)| == |a| && |multiset(b)| == |b|;
    if a != [] {
      var n := |a| - 1;
      var i := PositionOf(a, b);
      AboutSplit(a, n, m, id);
      AboutSplit(b, i, m, id);
      assert a[..n] + a[n + 1..] == a[..n];
      ReorderedAbout(a[..n], b[..i] + b[i + 1..], m, id);
    }
  }

  lemma {:induction false} AboutSplit(b: seq<Arrival>, i: nat, m: nat, id: string)
    requires i < |b|
    ensures multiset(About(b, m, id)) == multiset(About(b[..i] + b[i + 1..], m, id))
      + if AboutPayment(b[i], m, id) then multiset{b[i]} else multiset{}
  {
    var n := |b| - 1;
    if i == n {
      assert b[..i] + b[i + 1..] == b[..n];
    } else {
      DropBoth(b, i);
      AboutSplit(b[..n], i, m, id);
    }
  }

  function Ended(reports: seq<PaymentStatus>): Option<PaymentStatus> {
    if reports == [] then None
    else if OnlyCapturedOrFailed(reports) && PayCaptured in reports then Some(PayCaptured)
    else Some(reports[0])
  }

  lemma AlikeEnds(reports: seq<PaymentStatus>)
    requires AllEqual(reports)
    ensures Folded(reports) == Ended(reports)
  {
    if reports != [] {
      FailedWinsWithoutCapture(reports);
      assert reports[0] in reports;
    }
  }

  /** Where any order will do, what the payment ends as is settled by the reports alone. */
  lemma AnyOrderEnds(db: Db, a: seq<Arrival>, clock: nat -> int, m: nat, id: string)
    requires Core(db) && PaymentStatusOf(db, m, id).None? && AnyOrderWillDo(a, m, id)
    ensures PaymentStatusOf(HandleInTurn(db, a, clock), m, id) == Ended(Reports(a, m, id))
  {
    var reports := Reports(a, m, id);
    if OnlyCapturedOrFailed(reports) && PayCaptured in reports {
      CaptureWinsOverTasks(db, a, clock, m, id);
    } else {
      PaymentAfterTasks(db, a, clock, m, id);
      AlikeEnds(reports);
    }
  }

  lemma SufficientOrder(events: seq<Arrival>, m: nat, id: string)
    requires AnyOrderWillDo(events, m, id)
    ensures OrderIrrelevant(events, m, id)
  {
    forall db, a, b, clockA, clockB |
      && Reached(db) && PaymentStatusOf(db, m, id).None?
      && multiset(a) == multiset(b) && multiset(About(a, m, id)) == multiset(events)
      ensures
        PaymentStatusOf(HandleInTurn(db, a, clockA), m, id) == PaymentStatusOf(HandleInTurn(db, b, clockB), m, id)
    {
      ReachedSound(db);
      ReorderedAbout(a, b, m, id);
      SameAbout(a, events, m, id);
      SameAbout(b, events, m, id);
      AnyOrderEnds(db, a, clockA, m, id);
      AnyOrderEnds(db, b, clockB, m, id);
      SameEnds(Reports(a, m, id), Reports(b, m, id));
    }
  }

  lemma SameEnds(x: seq<PaymentStatus>, y: seq<PaymentStatus>)
    requires multiset(x) == multiset(y)
    ensures x == [] <==> y == []
    ensures PayCaptured in x <==> PayCaptured in y
    ensures OnlyCapturedOrFailed(x) <==> OnlyCapturedOrFailed(y)
    ensures AllEqual(x) && x != [] && y != [] ==> x[0] == y[0]
  {
    SameMembers(x, y);
    assert |multiset(x)| == |x| && |multiset(y)| == |y|;
    if x != [] && y != [] { assert y[0] in y && x[0] in x; }
  }
}
