/** A schedule in which two failures of one customer are counted once. */
module LostFailure {
  import opened Domain
  import opened Tables
  import opened Services
  import opened Lifecycle
  import opened Effects
  import opened Invariants
  import opened Runs
  import opened Interleaving
  import opened FailureTotals
  import opened Scenarios
  import SyncEvents

  const SHOP := Shop(0, "o", "INR", "c@x")
  const SECOND := FailureEvent(SHOP, "pp")
  const THIRD := FailureEvent(SHOP, "ppp")

  // ---- Schedules so far ----

  ghost predicate Scheduled(s: System) {
    exists events :: Schedule(START, events) == s
  }

  lemma {:induction false} ScheduleThen(s: System, events: seq<Event>, e: Event)
    ensures Schedule(s, events + [e]) == Step(Schedule(s, events), e)
    decreases |events|
  {
    if events == [] {
      assert events + [e] == [e] && [e][1..] == [];
    } else {
      assert (events + [e])[1..] == events[1..] + [e];
      ScheduleThen(Step(s, events[0]), events[1..], e);
    }
  }

  lemma ScheduledNext(s: System, e: Event)
    requires Scheduled(s)
    ensures Scheduled(Step(s, e))
  {
    var events :| Schedule(START, events) == s;
    ScheduleThen(START, events, e);
  }

  lemma ScheduledSound(s: System)
    requires Scheduled(s)
    ensures TotalsInv(s)
  {
    var events :| Schedule(START, events) == s;
    StartTotals();
    ScheduleKeepsTotals(START, events);
  }

  /** A worker without a look makes its call. */
  lemma CallNext(db: Db, op: Op)
    requires Scheduled(System(db, map[])) && (op.Process? ==> op.missed == NOTHING_MISSED)
    ensures Scheduled(System(Apply(db, op), map[]))
  {
    var s := System(db, map[]);
    ScheduledSound(s);
    PerformIsApply(s, 0, op);
    ScheduledNext(s, Do(0, op));
    assert Step(s, Do(0, op)) == System(Apply(db, op), map[]);
  }

  // ---- Two failures of a known customer ----

  /** The customer failed once and counted once; two more of its failures wait for a worker. */
  predicate TwoWaiting(db: Db) {
    && OneOrder(db, SHOP) && db.payments == [Row(SHOP, "p", PayFailed)]
    && |db.cases| == 1 && ActiveFor(db.cases[0], 0, 0)
    && db.customers == [Customer(0, SHOP.email, "", "Customer", 1, 1)]
    && |db.events| == 3 && Waits(db, 1, SHOP, SECOND) && Waits(db, 2, SHOP, THIRD)
  }

  lemma FirstFailureWrites()
    ensures SyncCustomer(EMPTY, 0, FailureEvent(SHOP, "p"), ReadsNow).0.customers
      == [Customer(0, SHOP.email, "", "Customer", 1, 1)]
  {
  }

  lemma ReachOpened() returns (db: Db)
    ensures Scheduled(System(db, map[])) && CaseOut(db, SHOP, "p")
  {
    assert Schedule(START, []) == START;
    var first := FailureEvent(SHOP, "p");
    CallNext(EMPTY, Ingest(0, "a", Some(first)));
    IngestNew(EMPTY, SHOP, "a", first);
    var d1 := Apply(EMPTY, Ingest(0, "a", Some(first)));
    CallNext(d1, Processing(0));
    FailureOpens(d1, 0, SHOP, "p");
    db := Apply(d1, Processing(0));
  }

  lemma ReachTwoWaiting() returns (db: Db)
    ensures Scheduled(System(db, map[])) && TwoWaiting(db)
  {
    var d0 := ReachOpened();
    FirstFailureWrites();
    CallNext(d0, Ingest(0, "bb", Some(SECOND)));
    IngestNew(d0, SHOP, "bb", SECOND);
    var d1 := Apply(d0, Ingest(0, "bb", Some(SECOND)));
    CallNext(d1, Ingest(0, "ccc", Some(THIRD)));
    IngestNew(d1, SHOP, "ccc", THIRD);
    db := Apply(d1, Ingest(0, "ccc", Some(THIRD)));
  }

  // ---- Both look, then both write ----

  lemma HandlingAnotherKeeps(db: Db, p: Payload, now: int, missed: Missed, freshId: string, other: string)
    requires IsFailureEvent(p) && p.externalPaymentId != other && FindPayment(db.payments, 0, other).None?
    ensures var r := HandleEvent(db, 0, p, now, missed, freshId);
      r.Commit? ==> FindPayment(r.db.payments, 0, other).None?
  {
    SyncAllValid(db, 0, p, missed.customer);
    SyncEvents.SyncAllMoves(db, 0, p, missed.customer, 0, "", other);
    FindPaymentFound(SyncAll(db, 0, p, missed.customer).0.payments, 0, other);
  }

  lemma SecondCommits(db: Db)
    requires Core(db) && TwoWaiting(db)
    ensures ProcessRawWebhook(db, 1, 0, MissedBy(db, 1), NO_ID).Commit?
  {
    EvolvesReflexive(db);
    TheOrderIsFound(db, SHOP);
    FindPaymentFound(db.payments, 0, "pp");
    FirstActiveFound(db.cases, 0, 0);
    ProcessAbortsExactly(db, db, 1, 0, NO_ID);
    assert !Overtaken(db, db, 1);
  }

  /** The second failure's task commits and counts it. */
  lemma SecondCounts(db: Db)
    requires Core(db) && TwoWaiting(db)
    ensures var after := Apply(db, Process(1, 0, MissedBy(db, 1), NO_ID));
      && after.customers == [Customer(0, SHOP.email, "", "Customer", 2, 2)]
      && FindPayment(after.payments, 0, "ppp").None?
      && after.events == db.events[1 := db.events[1].(processed := true)]
  {
    SecondCommits(db);
    FindPaymentFound(db.payments, 0, "ppp");
    TaskWritesCustomer(db, Process(1, 0, MissedBy(db, 1), NO_ID));
    CoreHandled(db, 0, SECOND, 0, MissedBy(db, 1), NO_ID);
    HandlingAnotherKeeps(db, SECOND, 0, MissedBy(db, 1), NO_ID, "ppp");
    KnownCustomerRewritten(db);
  }

  lemma KnownCustomerRewritten(db: Db)
    requires db.customers == [Customer(0, SHOP.email, "", "Customer", 1, 1)]
    ensures SyncCustomer(db, 0, SECOND, CustomerIn(db, 0, SECOND)).0.customers
      == [Customer(0, SHOP.email, "", "Customer", 2, 2)]
  {
    assert db.customers[..0] == [];
    assert FindCustomer(db.customers, 0, SHOP.email, "") == Some(0);
  }

  /** The third failure's task read the customer before the second's write, and loses it. */
  lemma ThirdIsLost(s: System, past: Db)
    requires OneWritten(s, past) && Evolves(past, s.db)
    ensures LosesFailure(s, Do(2, Processing(2)))
  {
    TheOrderIsFound(past, SHOP);
    OrderFoundStays(past.orders, s.db.orders, 0, SHOP.key);
    FirstActiveFound(past.cases, 0, 0);
    assert past.customers[..0] == [];
    assert FindCustomer(past.customers, 0, SHOP.email, "") == Some(0);
    assert WrittenSince(past, s.db, 0, THIRD);
  }

  lemma ReachBothLooked() returns (db: Db)
    ensures TwoWaiting(db) && Scheduled(BothLooked(db))
  {
    db := ReachTwoWaiting();
    var s0 := System(db, map[]);
    ScheduledNext(s0, LookForRows(1, 1));
    ScheduledNext(Step(s0, LookForRows(1, 1)), LookForRows(2, 2));
    assert Step(Step(s0, LookForRows(1, 1)), LookForRows(2, 2))
        == BothLooked(db);
  }

  /** The second failure's worker has committed; the third's acts on what it saw before. */
  predicate OneWritten(s: System, past: Db) {
    && TwoWaiting(past) && s.looks == map[2 := TaskLook(2, past)]
    && s.db.customers == [Customer(0, SHOP.email, "", "Customer", 2, 2)]
    && FindPayment(s.db.payments, 0, "ppp").None?
    && s.db.events == past.events[1 := past.events[1].(processed := true)]
  }

  /** A worker's call for the event it looked for, acting on that look. */
  lemma LookedCall(s: System, w: nat, op: Op, past: Db)
    requires op.Process? && SeenFor(s, w, op) == Some(past)
    ensures Step(s, Do(w, op)) == System(Apply(s.db, op.(missed := MissedBy(past, op.rawId))), s.looks - {w})
  {
  }

  function BothLooked(db: Db): System {
    System(db, map[1 := TaskLook(1, db), 2 := TaskLook(2, db)])
  }

  lemma SecondLooked(db: Db, op: Op)
    requires op.Process? && op.rawId == 1 && op.missed == NOTHING_MISSED
    ensures Step(BothLooked(db), Do(1, op))
      == System(Apply(db, op.(missed := MissedBy(db, 1))), map[2 := TaskLook(2, db)])
  {
    LookedCall(BothLooked(db), 1, op, db);
    assert BothLooked(db).looks - {1} == map[2 := TaskLook(2, db)];
  }

  lemma SecondWritten(db: Db, after: Db)
    requires Core(db) && TwoWaiting(db) && after == Apply(db, Process(1, 0, MissedBy(db, 1), NO_ID))
    ensures OneWritten(System(after, map[2 := TaskLook(2, db)]), db)
  {
    SecondCounts(db);
  }

  lemma ReachOneWritten() returns (past: Db, s: System)
    ensures Scheduled(s) && OneWritten(s, past)
  {
    past := ReachBothLooked();
    var op, task := Processing(1), Process(1, 0, MissedBy(past, 1), NO_ID);
    ScheduledCore(BothLooked(past));
    ScheduledNext(BothLooked(past), Do(1, op));
    SecondLooked(past, op);
    SecondWritten(past, Apply(past, task));
    s := System(Apply(past, task), map[2 := TaskLook(2, past)]);
  }

  lemma ReachLoss() returns (s: System, e: Event)
    ensures Scheduled(s) && LosesFailure(s, e)
  {
    var past: Db;
    past, s := ReachOneWritten();
    e := Do(2, Processing(2));
    LookIsSound(s, 2);
    ThirdIsLost(s, past);
  }

  lemma ScheduledCore(s: System)
    requires Scheduled(s)
    ensures Core(s.db)
  {
    ScheduledSound(s);
  }

  lemma LookIsSound(s: System, w: nat)
    requires Scheduled(s) && w in s.looks
    ensures Evolves(s.looks[w].past, s.db)
  {
    ScheduledSound(s);
  }

  /** Some schedule counts fewer failures than it processed: two tasks read one customer, and both write. */
  lemma TwoFailuresCountedOnce()
    ensures exists events ::
      SumFailures(Schedule(START, events).db.customers) < CountFailures(Schedule(START, events).db.events)
  {
    var s, e := ReachLoss();
    ScheduledSound(s);
    StepKeepsTotals(s, e);
    var after := Step(s, e);
    TotalsAgainstWrites(after.db.customers);
    ScheduledNext(s, e);
    var events :| Schedule(START, events) == after;
    assert SumFailures(Schedule(START, events).db.customers) < CountFailures(Schedule(START, events).db.events);
  }
}
