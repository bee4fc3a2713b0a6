/**
 Check-then-insert with the check and the insert as separate steps: a worker looks, others commit in between, and
 only then does the worker insert, under the unique constraints. A look remembers the database it was taken in.
 */
module Interleaving {
  import opened Domain
  import opened Tables
  import opened Services
  import opened Lifecycle
  import opened Effects
  import opened Invariants
  import opened Runs

  /** What a worker has read: the rows its task needs, or the row of a delivered event. */
  datatype Look = TaskLook(rawId: nat, past: Db) | DeliveryLook(merchant: nat, eventId: string, past: Db)

  datatype System = System(db: Db, looks: map<nat, Look>)

  datatype Event =
    | LookForRows(worker: nat, rawId: nat)
    | LookForEvent(worker: nat, merchant: nat, eventId: string)
    | Do(worker: nat, op: Op)

  const START := System(EMPTY, map[])

  /** The customer row that an event's task reads in `past`. */
  function CustomerIn(past: Db, m: nat, p: Payload): CustomerRead {
    FindCustomerFound(past.customers, m, p.email, p.phone);
    match FindCustomer(past.customers, m, p.email, p.phone)
    case None => SawNoCustomer
    case Some(i) => SawCustomer(i, past.customers[i].totalFailures, past.customers[i].name)
  }

  /** The order, payment and active case that an event's task did not find in `past`, and the customer it did. */
  function MissedBy(past: Db, rawId: nat): Missed {
    if rawId >= |past.events| || past.events[rawId].payload.None? then NOTHING_MISSED
    else
      var m, p := past.events[rawId].merchant, past.events[rawId].payload.value;
      var order := FindOrder(past.orders, m, OrderKey(p));
      Missed(
        order.None?, FindPayment(past.payments, m, p.externalPaymentId).None?,
        order.None? || FirstActive(past.cases, m, order.value).None?, CustomerIn(past, m, p))
  }

  /** A worker's look counts only for the very task, or the very event, it was taken for. */
  function SeenFor(s: System, worker: nat, op: Op): Option<Db> {
    if worker !in s.looks then None
    else match s.looks[worker]
      case TaskLook(rawId, past) => if op.Process? && op.rawId == rawId then Some(past) else None
      case DeliveryLook(merchant, eventId, past) =>
        if op.Ingest? && op.merchant == merchant && op.eventId == eventId then Some(past) else None
  }

  /** The task acts on what its worker saw; without a look of its own it reads as it acts. */
  function Resolve(s: System, worker: nat, op: Op): Op {
    if op.Process? then
      var seen := SeenFor(s, worker, op);
      op.(missed := if seen.Some? then MissedBy(seen.value, op.rawId) else NOTHING_MISSED)
    else op
  }

  /** A delivery whose lookup ran in `past`: a row seen is returned; a row not seen is inserted, unless the unique
      constraint rejects it, and then the winner's row is selected. */
  function DeliverAfter(past: Db, db: Db, merchant: nat, eventId: string, payload: Option<Payload>): (Db, Ingested) {
    match FindEvent(past.events, merchant, eventId)
    case Some(i) => (db, Ingested(true, i))
    case None =>
      var winner := FindEvent(db.events, merchant, eventId);
      if winner.Some? then (db, Ingested(true, winner.value))
      else (db.(events := db.events + [RawEvent(merchant, eventId, payload, false)]), Ingested(false, |db.events|))
  }

  function Perform(s: System, worker: nat, op: Op): Db {
    if op.Ingest? then
      var seen := SeenFor(s, worker, op);
      DeliverAfter(if seen.Some? then seen.value else s.db, s.db, op.merchant, op.eventId, op.payload).0
    else Apply(s.db, Resolve(s, worker, op))
  }

  function Step(s: System, e: Event): System {
    match e
    case LookForRows(w, rawId) => s.(looks := s.looks[w := TaskLook(rawId, s.db)])
    case LookForEvent(w, merchant, eventId) => s.(looks := s.looks[w := DeliveryLook(merchant, eventId, s.db)])
    case Do(w, op) => System(Perform(s, w, op), s.looks - {w})
  }

  function Schedule(s: System, events: seq<Event>): System
    decreases |events|
  {
    if events == [] then s else Schedule(Step(s, events[0]), events[1..])
  }

  /** The calls of an interleaving, each with what its worker had seen. */
  function Calls(s: System, events: seq<Event>): seq<Op>
    decreases |events|
  {
    if events == [] then []
    else
      var made := if events[0].Do? then [Resolve(s, events[0].worker, events[0].op)] else [];
      made + Calls(Step(s, events[0]), events[1..])
  }

  // ---- First matches stay first ----

  lemma EventFoundStays(a: seq<RawEvent>, b: seq<RawEvent>, m: nat, e: string)
    requires EventsEvolve(a, b) && FindEvent(a, m, e).Some?
    ensures FindEvent(b, m, e) == FindEvent(a, m, e)
  {
    FindEventFound(a, m, e);
    FindEventFound(b, m, e);
    var i := FindEvent(a, m, e).value;
    forall j | 0 <= j <= i ensures b[j].merchant == a[j].merchant && b[j].eventId == a[j].eventId {
      assert EventEvolves(a[j], b[j]);
    }
  }

  lemma OrderFoundStays(a: seq<Order>, b: seq<Order>, m: nat, key: string)
    requires OrdersEvolve(a, b) && FindOrder(a, m, key).Some?
    ensures FindOrder(b, m, key) == FindOrder(a, m, key)
  {
    FindOrderFound(a, m, key);
    FindOrderFound(b, m, key);
    var i := FindOrder(a, m, key).value;
    forall j | 0 <= j <= i ensures b[j].merchant == a[j].merchant && b[j].externalId == a[j].externalId {
      assert OrderEvolves(a[j], b[j]);
    }
  }

  // ---- Deliveries ----

  /** Whenever the lookup ran, the delivery does what it would have done looking now. */
  lemma DeliveryIgnoresStaleness(past: Db, db: Db, merchant: nat, eventId: string, payload: Option<Payload>)
    requires Evolves(past, db)
    ensures DeliverAfter(past, db, merchant, eventId, payload) == IngestWebhook(db, merchant, eventId, payload)
  {
    if FindEvent(past.events, merchant, eventId).Some? {
      EventFoundStays(past.events, db.events, merchant, eventId);
    }
  }

  // ---- Every schedule is a run ----

  /** Every look was taken in a database the current one has evolved from. */
  ghost predicate SystemInv(s: System) {
    Inv(s.db) && forall w | w in s.looks :: Evolves(s.looks[w].past, s.db)
  }

  lemma PerformIsApply(s: System, worker: nat, op: Op)
    requires SystemInv(s)
    ensures Perform(s, worker, op) == Apply(s.db, Resolve(s, worker, op))
  {
    if op.Ingest? {
      EvolvesReflexive(s.db);
      var seen := SeenFor(s, worker, op);
      DeliveryIgnoresStaleness(if seen.Some? then seen.value else s.db, s.db, op.merchant, op.eventId, op.payload);
    }
  }

  lemma StepKeepsSystemInv(s: System, e: Event)
    requires SystemInv(s)
    ensures SystemInv(Step(s, e))
  {
    EvolvesReflexive(s.db);
    if e.Do? {
      PerformIsApply(s, e.worker, e.op);
      StepKeepsInv(s.db, Resolve(s, e.worker, e.op));
      forall w | w in Step(s, e).looks ensures Evolves(s.looks[w].past, Step(s, e).db) {
        EvolvesTransitive(s.looks[w].past, s.db, Step(s, e).db);
      }
    }
  }

  /** Every interleaving of looks and calls keeps the invariant and ends where a plain run of those calls ends. */
  lemma {:induction false} InterleavingIsARun(s: System, events: seq<Event>)
    requires SystemInv(s)
    ensures Schedule(s, events).db == Run(s.db, Calls(s, events)) && SystemInv(Schedule(s, events))
    decreases |events|
  {
    if events != [] {
      var s' := Step(s, events[0]);
      StepKeepsSystemInv(s, events[0]);
      InterleavingIsARun(s', events[1..]);
      if events[0].Do? {
        PerformIsApply(s, events[0].worker, events[0].op);
        assert Calls(s, events)[1..] == Calls(s', events[1..]);
      } else {
        assert Calls(s, events) == Calls(s', events[1..]);
      }
    }
  }

  lemma ScheduleInv(events: seq<Event>)
    ensures SystemInv(Schedule(START, events))
  {
    EmptyInv();
    InterleavingIsARun(START, events);
  }

  /** However the creators interleave, an order never has two active cases. */
  lemma OneActiveCasePerOrder(events: seq<Event>)
    ensures UniqueActive(Schedule(START, events).db.cases)
  {
    ScheduleInv(events);
  }

  /** However deliveries of an event interleave, the one that inserts makes the only row for it, and every other
      returns that row as a duplicate and changes nothing, even when its lookup had found none. */
  lemma ConcurrentDeliveriesShareOneRow(
    events: seq<Event>, w: nat, merchant: nat, eventId: string, payload: Option<Payload>)
    ensures var s := Schedule(START, events);
      var seen := SeenFor(s, w, Ingest(merchant, eventId, payload));
      var (db', r) := DeliverAfter(if seen.Some? then seen.value else s.db, s.db, merchant, eventId, payload);
      && (r.isDuplicate <==> FindEvent(s.db.events, merchant, eventId).Some?) && (r.isDuplicate ==> db' == s.db)
      && r.rawId < |db'.events| && db'.events[r.rawId].merchant == merchant && db'.events[r.rawId].eventId == eventId
      && forall j | 0 <= j < |db'.events| && j != r.rawId ::
           !(db'.events[j].merchant == merchant && db'.events[j].eventId == eventId)
  {
    ScheduleInv(events);
    var s := Schedule(START, events);
    EvolvesReflexive(s.db);
    var seen := SeenFor(s, w, Ingest(merchant, eventId, payload));
    DeliveryIgnoresStaleness(if seen.Some? then seen.value else s.db, s.db, merchant, eventId, payload);
    FindEventFound(s.db.events, merchant, eventId);
  }

  // ---- When tasks abort ----

  /** A case active for an order now was so in every earlier database that has it. */
  lemma ActiveSinceOpened(a: seq<Case>, b: seq<Case>, merchant: nat, order: nat)
    requires CasesEvolve(a, b)
    ensures forall i | 0 <= i < |a| && ActiveFor(b[i], merchant, order) :: ActiveFor(a[i], merchant, order)
  {
    forall i | 0 <= i < |a| && ActiveFor(b[i], merchant, order) ensures ActiveFor(a[i], merchant, order) {
      assert CaseEvolves(a[i], b[i]);
    }
  }

  /** A case of the order that is active now and was opened after `past`, in which the order had none. */
  predicate OpenedSince(past: Db, db: Db, merchant: nat, order: nat) {
    && FirstActive(past.cases, merchant, order).None?
    && exists i | |past.cases| <= i < |db.cases| :: ActiveFor(db.cases[i], merchant, order)
  }

  /** Creation aborts exactly when its lookup found no active case and one has been opened since and is still active. */
  lemma CreationAbortsExactlyWhenStale(
    past: Db, db: Db, merchant: nat, order: nat, payId: nat, p: Payload, now: int)
    requires UniqueActive(db.cases) && CasesEvolve(past.cases, db.cases) && payId < |db.payments|
    ensures CreateOrUpdateCase(
        db, merchant, order, payId, p, now, FirstActive(past.cases, merchant, order).None?).Abort?
      <==> OpenedSince(past, db, merchant, order)
  {
    FirstActiveFound(db.cases, merchant, order);
    FirstActiveFound(past.cases, merchant, order);
    ActiveSinceOpened(past.cases, db.cases, merchant, order);
  }

  /** An event's task, having looked in `past`, meets a row that was not there: its order, its payment, or, for a
      failure, an active case of its order. */
  predicate Overtaken(past: Db, db: Db, rawId: nat) {
    && rawId < |past.events| && rawId < |db.events| && !db.events[rawId].processed && db.events[rawId].payload.Some?
    && var m, p := db.events[rawId].merchant, db.events[rawId].payload.value;
       var order := FindOrder(db.orders, m, OrderKey(p));
       || (FindOrder(past.orders, m, OrderKey(p)).None? && order.Some?)
       || (FindPayment(past.payments, m, p.externalPaymentId).None?
           && FindPayment(db.payments, m, p.externalPaymentId).Some?)
       || (IsFailureEvent(p) && order.Some? && OpenedSince(past, db, m, order.value))
  }

  lemma SyncedOrder(db: Db, merchant: nat, p: Payload, read: CustomerRead)
    ensures SyncAll(db, merchant, p, read).1 ==
      match FindOrder(db.orders, merchant, OrderKey(p)) case Some(i) => i case None => |db.orders|
  {
    SyncAllTouches(db, merchant, p, read);
  }

  /** Handling an event aborts exactly when it is a failure that cannot create its case. */
  lemma HandlingAborts(db: Db, merchant: nat, p: Payload, now: int, missed: Missed, freshId: string)
    requires Core(db)
    ensures var (synced, order, pay) := SyncAll(db, merchant, p, missed.customer);
      && pay < |synced.payments| && synced.cases == db.cases && UniqueActive(synced.cases)
      && (HandleEvent(db, merchant, p, now, missed, freshId).Abort? <==>
           IsFailureEvent(p) && CreateOrUpdateCase(synced, merchant, order, pay, p, now, missed.active).Abort?)
  {
    SyncAllValid(db, merchant, p, missed.customer);
    SyncAllEffect(db, merchant, p, missed.customer);
    var (synced, order, pay) := SyncAll(db, merchant, p, missed.customer);
    CoreQuiet(db, synced);
    if !IsFailureEvent(p) && IsCaptureEvent(p) {
      CoreWebhookVerified(synced, merchant, p, freshId);
    }
  }

  lemma FailureAbortsExactly(past: Db, db: Db, merchant: nat, p: Payload, now: int, missed: Missed, freshId: string)
    requires Core(db) && Evolves(past, db) && IsFailureEvent(p)
    requires var before := FindOrder(past.orders, merchant, OrderKey(p));
      && (before.None? ==> FindOrder(db.orders, merchant, OrderKey(p)).None?)
      && missed.active == (before.None? || FirstActive(past.cases, merchant, before.value).None?)
    ensures var order := FindOrder(db.orders, merchant, OrderKey(p));
      HandleEvent(db, merchant, p, now, missed, freshId).Abort? <==>
        order.Some? && OpenedSince(past, db, merchant, order.value)
  {
    var key := OrderKey(p);
    var before := FindOrder(past.orders, merchant, key);
    SyncedOrder(db, merchant, p, missed.customer);
    HandlingAborts(db, merchant, p, now, missed, freshId);
    var (synced, order, pay) := SyncAll(db, merchant, p, missed.customer);
    if before.Some? {
      OrderFoundStays(past.orders, db.orders, merchant, key);
      CreationAbortsExactlyWhenStale(past, synced, merchant, order, pay, p, now);
    } else {
      NoCaseOfNewOrder(db, merchant);
      FirstActiveFound(synced.cases, merchant, order);
    }
  }

  lemma NoCaseOfNewOrder(db: Db, merchant: nat)
    requires Core(db)
    ensures forall i | 0 <= i < |db.cases| :: !ActiveFor(db.cases[i], merchant, |db.orders|)
  {
    assert OrdersOwned(db);
  }

  lemma ProcessAbortsExactly(past: Db, db: Db, rawId: nat, now: int, freshId: string)
    requires Core(db) && Evolves(past, db)
    ensures ProcessRawWebhook(db, rawId, now, MissedBy(past, rawId), freshId).Abort? <==> Overtaken(past, db, rawId)
  {
    if rawId < |db.events| && !db.events[rawId].processed && db.events[rawId].payload.Some? {
      var m, p := db.events[rawId].merchant, db.events[rawId].payload.value;
      if rawId < |past.events| {
        assert EventEvolves(past.events[rawId], db.events[rawId]);
        var missed := MissedBy(past, rawId);
        if !InsertConflict(db, m, p, missed) {
          if IsFailureEvent(p) {
            FailureAbortsExactly(past, db, m, p, now, missed, freshId);
          } else {
            HandlingAborts(db, m, p, now, missed, freshId);
          }
        }
      } else {
        FreshHandlingCommits(db, m, p, now, freshId);
      }
    }
  }

  /** Reading as it acts, a task never aborts. */
  lemma FreshHandlingCommits(db: Db, merchant: nat, p: Payload, now: int, freshId: string)
    requires Core(db)
    ensures HandleEvent(db, merchant, p, now, NOTHING_MISSED, freshId).Commit?
  {
    HandlingAborts(db, merchant, p, now, NOTHING_MISSED, freshId);
    SyncAllValid(db, merchant, p, ReadsNow);
    var (synced, order, pay) := SyncAll(db, merchant, p, ReadsNow);
    FirstActiveFound(synced.cases, merchant, order);
  }

  lemma UnlookedTasksCommit(db: Db, rawId: nat, now: int, freshId: string)
    requires Core(db)
    ensures ProcessRawWebhook(db, rawId, now, NOTHING_MISSED, freshId).Commit?
  {
    if rawId < |db.events| && !db.events[rawId].processed && db.events[rawId].payload.Some? {
      FreshHandlingCommits(db, db.events[rawId].merchant, db.events[rawId].payload.value, now, freshId);
    }
  }

  /** In every schedule a webhook task aborts exactly when its worker had looked for that very event's rows and was
      overtaken: an order or payment it missed exists by now, or it is a failure and a case of its order, opened since
      that look, is still active. */
  lemma TaskAbortsExactlyWhenOvertaken(events: seq<Event>, w: nat, op: Op)
    requires op.Process?
    ensures var s := Schedule(START, events);
      var task := Resolve(s, w, op);
      ProcessRawWebhook(s.db, task.rawId, task.now, task.missed, task.freshId).Abort? <==>
        SeenFor(s, w, op).Some? && Overtaken(SeenFor(s, w, op).value, s.db, op.rawId)
  {
    ScheduleInv(events);
    var s := Schedule(START, events);
    if SeenFor(s, w, op).Some? {
      ProcessAbortsExactly(s.looks[w].past, s.db, op.rawId, op.now, op.freshId);
    } else {
      UnlookedTasksCommit(s.db, op.rawId, op.now, op.freshId);
    }
  }
}
