/**
 Customers' failure totals under interleaving. A task reads its customer without a lock and writes the total it read
 plus one, so a write in between is lost; `credits` counts every such write and nothing else.
 */
module FailureTotals {
  import opened Tables
  import opened Services
  import opened Lifecycle
  import opened Effects
  import opened Invariants
  import opened Runs
  import opened Interleaving

  // ---- Rows over time ----

  predicate NeverAhead(customers: seq<Customer>) {
    forall i | 0 <= i < |customers| :: customers[i].totalFailures <= customers[i].credits
  }

  /** Every row's total is its number of writes: nothing was lost. */
  predicate AllExact(customers: seq<Customer>) {
    forall i | 0 <= i < |customers| :: customers[i].totalFailures == customers[i].credits
  }

  /** Writes are only added, a total changes only with a write, and what was lost stays lost. */
  predicate CustomerEvolves(x: Customer, y: Customer) {
    && x.credits <= y.credits
    && (x.credits == y.credits ==> y.totalFailures == x.totalFailures)
    && (x.totalFailures < x.credits ==> y.totalFailures < y.credits)
  }

  predicate CustomersEvolve(a: seq<Customer>, b: seq<Customer>) {
    |a| <= |b| && forall i | 0 <= i < |a| :: CustomerEvolves(a[i], b[i])
  }

  lemma CustomersEvolveTransitive(a: seq<Customer>, b: seq<Customer>, c: seq<Customer>)
    requires CustomersEvolve(a, b) && CustomersEvolve(b, c)
    ensures CustomersEvolve(a, c)
  {
    forall i | 0 <= i < |a| ensures CustomerEvolves(a[i], c[i]) {
      assert CustomerEvolves(a[i], b[i]) && CustomerEvolves(b[i], c[i]);
    }
  }

  lemma {:induction false} TotalsAgainstWrites(customers: seq<Customer>)
    requires NeverAhead(customers)
    ensures SumFailures(customers) <= SumCredits(customers)
    ensures SumFailures(customers) == SumCredits(customers) <==> AllExact(customers)
  {
    if customers != [] {
      var n := |customers| - 1;
      TotalsAgainstWrites(customers[..n]);
      assert forall i | 0 <= i < n :: customers[..n][i] == customers[i];
    }
  }

  // ---- One task ----

  /** The customer that the task read in `past` has been written since. */
  predicate WrittenSince(past: Db, db: Db, m: nat, p: Payload) {
    FindCustomerFound(past.customers, m, p.email, p.phone);
    var found := FindCustomer(past.customers, m, p.email, p.phone);
    && found.Some? && found.value < |db.customers|
    && past.customers[found.value].credits < db.customers[found.value].credits
  }

  lemma ReadingNowIsReadingHere(db: Db, m: nat, p: Payload)
    ensures SyncCustomer(db, m, p, ReadsNow) == SyncCustomer(db, m, p, CustomerIn(db, m, p))
  {
    FindCustomerFound(db.customers, m, p.email, p.phone);
  }

  /** A failure adds a write, and loses it exactly when the row it read was written since. */
  lemma WriteLosesExactly(past: Db, db: Db, m: nat, p: Payload)
    requires NeverAhead(db.customers) && NeverAhead(past.customers) && CustomersEvolve(past.customers, db.customers)
    ensures var after := SyncCustomer(db, m, p, CustomerIn(past, m, p)).0.customers;
      && CustomersEvolve(db.customers, after) && NeverAhead(after)
      && (AllExact(after) <==> AllExact(db.customers) && !(AddsFailure(p) && WrittenSince(past, db, m, p)))
  {
    FindCustomerFound(past.customers, m, p.email, p.phone);
    var after := SyncCustomer(db, m, p, CustomerIn(past, m, p)).0.customers;
    var found := FindCustomer(past.customers, m, p.email, p.phone);
    if HasContact(p) {
      if found.Some? {
        assert CustomerEvolves(past.customers[found.value], db.customers[found.value]);
        RowRewritten(past.customers[found.value], db.customers, found.value, after, p);
      } else {
        assert after[..|db.customers|] == db.customers;
        assert AllExact(after) ==> AllExact(after[..|db.customers|]);
      }
    }
  }

  lemma RowRewritten(x: Customer, rows: seq<Customer>, i: nat, after: seq<Customer>, p: Payload)
    requires i < |rows| && NeverAhead(rows) && x.totalFailures <= x.credits && CustomerEvolves(x, rows[i])
    requires |after| == |rows| && forall j | 0 <= j < |rows| && j != i :: after[j] == rows[j]
    requires after[i].totalFailures == if p.status == "failed" then x.totalFailures + 1 else rows[i].totalFailures
    requires after[i].credits == rows[i].credits + if p.status == "failed" then 1 else 0
    ensures CustomersEvolve(rows, after) && NeverAhead(after)
    ensures AllExact(after) <==> AllExact(rows) && !(p.status == "failed" && x.credits < rows[i].credits)
  {
    if AllExact(after) {
      forall j | 0 <= j < |rows| ensures rows[j].totalFailures == rows[j].credits {
        assert after[j].totalFailures == after[j].credits;
      }
    }
  }

  // ---- Calls ----

  /** Only webhook tasks touch customers. */
  lemma OtherCallsKeepCustomers(db: Db, op: Op)
    requires Core(db) && !op.Process?
    ensures Apply(db, op).customers == db.customers
  {
    match op {
      case Ingest(_, _, _) =>
      case Decide(c, ctx, p, model, now) =>
        if c < |db.cases| { CaseDecisionIsQuiet(db, c, ctx, p, model, now); }
      case DecideWithAi(c, ctx, p, model, now, reply) =>
        if c < |db.cases| { AiDecisionIsQuiet(db, c, ctx, p, model, now, reply); }
      case Execute(c, _, _, _, env, now, dispatchedAt) =>
        if c < |db.cases| { ExecuteEffect(db, CommandOf(db, op), env, now, dispatchedAt); }
      case Poll(c, merchantExists, linkPaid, freshId) =>
        PollKeepsCustomers(db, c, merchantExists, linkPaid, freshId);
      case ReassessAll(_) =>
    }
  }

  lemma PollKeepsCustomers(db: Db, c: nat, merchantExists: bool, linkPaid: bool, freshId: string)
    requires Core(db)
    ensures var r := PollAndReconcile(db, c, merchantExists, linkPaid, freshId);
      r.Commit? ==> r.db.customers == db.customers
  {
    PollEffect(db, c, merchantExists, linkPaid, freshId);
    var r := PollAndReconcile(db, c, merchantExists, linkPaid, freshId);
    if r.Commit? && r.db != db {
      var paid: Db, ref: string :| PaidAndVerified(db, paid, c, ref, r.db);
      CoreQuiet(db, paid);
      CoreVerified(paid, c, |db.payments|, ref);
    }
  }

  /** The event's task handles it: it is stored, not processed, and parsed. */
  predicate Handles(db: Db, rawId: nat) {
    rawId < |db.events| && !db.events[rawId].processed && db.events[rawId].payload.Some?
  }

  lemma TaskWritesCustomer(db: Db, op: Op)
    requires Core(db) && op.Process?
    ensures var r := ProcessRawWebhook(db, op.rawId, op.now, op.missed, op.freshId);
      Apply(db, op).customers ==
        if r.Commit? && Handles(db, op.rawId)
        then SyncCustomer(
          db, db.events[op.rawId].merchant, db.events[op.rawId].payload.value, op.missed.customer).0.customers
        else db.customers
  {
    if Handles(db, op.rawId) {
      CoreHandled(
        db, db.events[op.rawId].merchant, db.events[op.rawId].payload.value, op.now, op.missed, op.freshId);
    }
  }

  // ---- Schedules ----

  /** No total is ahead of its writes, and every look was taken in customers these have evolved from. */
  ghost predicate TotalsInv(s: System) {
    && SystemInv(s) && NeverAhead(s.db.customers)
    && forall w | w in s.looks ::
         NeverAhead(s.looks[w].past.customers) && CustomersEvolve(s.looks[w].past.customers, s.db.customers)
  }

  /** The step commits a failure of a known customer whose row was written since the worker looked. */
  predicate LosesFailure(s: System, e: Event) {
    && e.Do? && e.op.Process? && Handles(s.db, e.op.rawId)
    && SeenFor(s, e.worker, e.op).Some?
    && var past := SeenFor(s, e.worker, e.op).value;
       var m, p := s.db.events[e.op.rawId].merchant, s.db.events[e.op.rawId].payload.value;
       && e.op.rawId < |past.events| && !Overtaken(past, s.db, e.op.rawId)
       && AddsFailure(p) && WrittenSince(past, s.db, m, p)
  }

  predicate NothingLost(s: System, events: seq<Event>)
    decreases |events|
  {
    events == [] || (!LosesFailure(s, events[0]) && NothingLost(Step(s, events[0]), events[1..]))
  }

  /** What one performed call does to the customers. */
  lemma PerformLosesExactly(s: System, w: nat, op: Op)
    requires TotalsInv(s)
    ensures var after := Perform(s, w, op).customers;
      && CustomersEvolve(s.db.customers, after) && NeverAhead(after)
      && (AllExact(after) <==> AllExact(s.db.customers) && !LosesFailure(s, Do(w, op)))
  {
    PerformIsApply(s, w, op);
    var task := Resolve(s, w, op);
    if !op.Process? {
      OtherCallsKeepCustomers(s.db, task);
    } else {
      TaskWritesCustomer(s.db, task);
      if Handles(s.db, op.rawId) { TaskLosesExactly(s, w, op); }
    }
  }

  lemma TaskLosesExactly(s: System, w: nat, op: Op)
    requires TotalsInv(s) && op.Process? && Handles(s.db, op.rawId)
    ensures var task := Resolve(s, w, op);
      var m, p := s.db.events[op.rawId].merchant, s.db.events[op.rawId].payload.value;
      var commits := ProcessRawWebhook(s.db, op.rawId, op.now, task.missed, op.freshId).Commit?;
      var after := if commits then SyncCustomer(s.db, m, p, task.missed.customer).0.customers else s.db.customers;
      && CustomersEvolve(s.db.customers, after) && NeverAhead(after)
      && (AllExact(after) <==> AllExact(s.db.customers) && !LosesFailure(s, Do(w, op)))
  {
    var m, p := s.db.events[op.rawId].merchant, s.db.events[op.rawId].payload.value;
    var seen := SeenFor(s, w, op);
    if seen.Some? && op.rawId < |seen.value.events| {
      assert EventEvolves(seen.value.events[op.rawId], s.db.events[op.rawId]);
      ProcessAbortsExactly(seen.value, s.db, op.rawId, op.now, op.freshId);
      WriteLosesExactly(seen.value, s.db, m, p);
    } else {
      UnlookedTasksCommit(s.db, op.rawId, op.now, op.freshId);
      ReadingNowIsReadingHere(s.db, m, p);
      WriteLosesExactly(s.db, s.db, m, p);
    }
  }

  lemma StepKeepsTotals(s: System, e: Event)
    requires TotalsInv(s)
    ensures TotalsInv(Step(s, e))
    ensures AllExact(Step(s, e).db.customers) <==> AllExact(s.db.customers) && !LosesFailure(s, e)
  {
    StepKeepsSystemInv(s, e);
    if e.Do? {
      PerformLosesExactly(s, e.worker, e.op);
      var s' := Step(s, e);
      forall w | w in s'.looks ensures CustomersEvolve(s'.looks[w].past.customers, s'.db.customers) {
        CustomersEvolveTransitive(s.looks[w].past.customers, s.db.customers, s'.db.customers);
      }
    }
  }

  lemma {:induction false} ScheduleKeepsTotals(s: System, events: seq<Event>)
    requires TotalsInv(s)
    ensures TotalsInv(Schedule(s, events))
    ensures AllExact(Schedule(s, events).db.customers) <==> AllExact(s.db.customers) && NothingLost(s, events)
    decreases |events|
  {
    if events != [] {
      StepKeepsTotals(s, events[0]);
      ScheduleKeepsTotals(Step(s, events[0]), events[1..]);
    }
  }

  lemma StartTotals()
    ensures TotalsInv(START) && AllExact(START.db.customers)
  {
    EmptyInv();
  }

  /** In every schedule the failure totals never exceed the distinct processed failures that named a contact, and they
      equal them exactly when no task committed a failure of a customer written since that task's own look. */
  lemma TotalsExactlyWhenNothingLost(events: seq<Event>)
    ensures var db := Schedule(START, events).db;
      && SumFailures(db.customers) <= CountFailures(db.events)
      && (SumFailures(db.customers) == CountFailures(db.events) <==> NothingLost(START, events))
  {
    StartTotals();
    ScheduleKeepsTotals(START, events);
    TotalsAgainstWrites(Schedule(START, events).db.customers);
  }

  lemma {:induction false} WithoutLooksNothingIsLost(s: System, events: seq<Event>)
    requires s.looks == map[] && forall e | e in events :: e.Do?
    ensures NothingLost(s, events)
    decreases |events|
  {
    if events != [] {
      assert events[0] in events && Step(s, events[0]).looks == map[];
      WithoutLooksNothingIsLost(Step(s, events[0]), events[1..]);
    }
  }

  /** Tasks that read and write in one step count every distinct processed failure that named a contact, once. */
  lemma TotalsCountDistinctEvents(events: seq<Event>)
    requires forall e | e in events :: e.Do?
    ensures SumFailures(Schedule(START, events).db.customers) == CountFailures(Schedule(START, events).db.events)
  {
    WithoutLooksNothingIsLost(START, events);
    TotalsExactlyWhenNothingLost(events);
  }
}
