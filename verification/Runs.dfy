/** Whole runs: any sequence of service calls, with any replies, clocks, policies and stale reads. */
module Runs {
  import opened Domain
  import opened Tables
  import opened Decision
  import opened Services
  import opened Lifecycle
  import opened Effects
  import opened Invariants

  datatype Op =
    | Ingest(merchant: nat, eventId: string, payload: Option<Payload>)
    | Process(rawId: nat, now: int, missed: Missed, freshId: string)
    | Decide(caseId: nat, ctx: Context, policy: Policy, model: Model, now: int)
    | DecideWithAi(caseId: nat, ctx: Context, policy: Policy, model: Model, now: int, reply: AiReply)
    | Execute(
        caseId: nat, action: ActionType, number: nat, note: CommandPayload, env: Env, now: int, dispatchedAt: int)
    | Poll(caseId: nat, merchantExists: bool, linkPaid: bool, freshId: string)
    | ReassessAll(now: int)

  function CommandOf(db: Db, op: Op): Command
    requires op.Execute? && op.caseId < |db.cases|
  {
    CreateCommand(op.caseId, db.cases[op.caseId], op.action, op.number, op.note)
  }

  function Ending<R>(db: Db, t: Txn<R>): Db {
    if t.Commit? then t.db else db
  }

  /** One call; an abort leaves the database as it was. */
  function Apply(db: Db, op: Op): Db {
    match op
    case Ingest(merchant, eventId, payload) => IngestWebhook(db, merchant, eventId, payload).0
    case Process(rawId, now, missed, freshId) => Ending(db, ProcessRawWebhook(db, rawId, now, missed, freshId))
    case Decide(c, ctx, p, model, now) =>
      if c < |db.cases| then Ending(db, EvaluateCaseDecision(db, c, ctx, p, model, now)) else db
    case DecideWithAi(c, ctx, p, model, now, reply) =>
      if c < |db.cases| then Ending(db, EvaluateWithAi(db, c, ctx, p, model, now, reply)) else db
    case Execute(c, _, _, _, env, now, dispatchedAt) =>
      if c < |db.cases| then Ending(db, ExecuteCommand(db, CommandOf(db, op), env, now, dispatchedAt)) else db
    case Poll(c, merchantExists, linkPaid, freshId) =>
      Ending(db, PollAndReconcile(db, c, merchantExists, linkPaid, freshId))
    case ReassessAll(now) => ReassessScheduled(db, now)
  }

  function Run(db: Db, ops: seq<Op>): Db
    decreases |ops|
  {
    if ops == [] then db else Run(Apply(db, ops[0]), ops[1..])
  }

  // ---- The invariant ----

  predicate CasesSound(cases: seq<Case>) {
    forall i | 0 <= i < |cases| :: SoundCase(cases[i])
  }

  ghost predicate Core(db: Db) {
    && CasesSound(db.cases) && Money(db) && UniqueActive(db.cases) && OrdersOwned(db) && AttemptsOk(db)
    && KeyedOrders(db.orders)
  }

  ghost predicate Inv(db: Db) {
    Core(db) && Counted(db)
  }

  lemma CasesSoundKept(a: seq<Case>, b: seq<Case>)
    requires CasesSound(a) && CasesEvolve(a, b)
    ensures CasesSound(b)
  {
    forall i | 0 <= i < |b| ensures SoundCase(b[i]) {
      if i < |a| { assert CaseEvolves(a[i], b[i]); }
    }
  }

  lemma OrdersOwnedKept(a: Db, b: Db)
    requires OrdersOwned(a) && Evolves(a, b) && |a.cases| == |b.cases|
    ensures OrdersOwned(b)
  {
    assert forall i | 0 <= i < |a.cases| :: CaseEvolves(a.cases[i], b.cases[i]);
  }

  lemma CoreQuiet(a: Db, b: Db)
    requires Core(a) && Quiet(a, b) && NoExecution(a, b) && |a.cases| == |b.cases|
    ensures Core(b)
  {
    CasesSoundKept(a.cases, b.cases);
    MoneyQuiet(a, b);
    UniqueActiveKept(a.cases, b.cases);
    OrdersOwnedKept(a, b);
    KeyedOrdersKept(a.orders, b.orders);
    AttemptsOkWithoutExecution(a, b);
  }

  lemma CoreSettled(a: Db, b: Db, caseId: nat, payId: nat)
    requires Core(a) && caseId < |a.cases| && payId < |a.payments| && Settled(a, b, caseId, payId)
    requires SettlementValid(a.cases[caseId], a.payments[payId])
    ensures Core(b)
  {
    SettledEvolves(a, b, caseId, payId);
    CasesSoundKept(a.cases, b.cases);
    MoneySettled(a, b, caseId, payId);
    UniqueActiveKept(a.cases, b.cases);
    OrdersOwnedKept(a, b);
    KeyedOrdersKept(a.orders, b.orders);
    AttemptsOkWithoutExecution(a, b);
  }

  lemma CoreVerified(db: Db, caseId: nat, payId: nat, ref: string)
    requires Core(db) && caseId < |db.cases| && payId < |db.payments|
    ensures var (db', verified) := VerifyAndRecover(db, caseId, payId, ref);
      && Core(db') && Evolves(db, db') && db'.events == db.events && db'.customers == db.customers
  {
    VerifyEffect(db, caseId, payId, ref);
    EvolvesReflexive(db);
    var (db', verified) := VerifyAndRecover(db, caseId, payId, ref);
    if db.cases[caseId].status != RECOVERED && verified {
      CoreSettled(db, db', caseId, payId);
      SettledEvolves(db, db', caseId, payId);
    }
  }

  lemma CoreCreated(db: Db, merchant: nat, order: nat, payId: nat, p: Payload, now: int, staleMiss: bool)
    requires Core(db) && payId < |db.payments| && order < |db.orders| && db.orders[order].merchant == merchant
    ensures var r := CreateOrUpdateCase(db, merchant, order, payId, p, now, staleMiss);
      r.Commit? ==> Core(r.db) && Evolves(db, r.db) && r.db.events == db.events && r.db.customers == db.customers
  {
    CreateEffect(db, merchant, order, payId, p, now, staleMiss);
    var r := CreateOrUpdateCase(db, merchant, order, payId, p, now, staleMiss);
    if r.Commit? {
      if |r.db.cases| == |db.cases| {
        CoreQuiet(db, r.db);
      } else {
        CasesSoundKept(db.cases, r.db.cases);
        MoneyQuiet(db, r.db);
        UniqueActiveAppended(db.cases, r.db.cases, merchant, order);
        KeyedOrdersKept(db.orders, r.db.orders);
        AttemptsOkWithoutExecution(db, r.db);
        forall i | 0 <= i < |r.db.cases|
          ensures r.db.cases[i].order < |r.db.orders|
            && r.db.orders[r.db.cases[i].order].merchant == r.db.cases[i].merchant
        {
          if i < |db.cases| { assert r.db.cases[i] == db.cases[i]; }
        }
      }
    }
  }

  lemma CoreCaseSettled(db: Db, merchant: nat, order: nat, c: nat, p: Payload, freshId: string)
    requires Core(db) && c < |db.cases|
    ensures var (paid, payId) := SettlingPayment(db, merchant, order, p, freshId);
      c < |paid.cases| && payId < |paid.payments| &&
      var db' := VerifyAndRecover(paid, c, payId, p.linkId).0;
      Core(db') && Evolves(db, db') && db'.events == db.events && db'.customers == db.customers
  {
    SettlingPaymentEffect(db, merchant, order, p, freshId);
    var (paid, payId) := SettlingPayment(db, merchant, order, p, freshId);
    CoreQuiet(db, paid);
    CoreVerified(paid, c, payId, p.linkId);
    EvolvesTransitive(db, paid, VerifyAndRecover(paid, c, payId, p.linkId).0);
  }

  /** Verifying from a webhook always commits: the one-row case lookup never sees two. */
  lemma CoreWebhookVerified(db: Db, merchant: nat, p: Payload, freshId: string)
    requires Core(db)
    ensures var r := VerifyFromWebhook(db, merchant, p, freshId);
      r.Commit? && Core(r.db) && Evolves(db, r.db) && r.db.events == db.events && r.db.customers == db.customers
  {
    EvolvesReflexive(db);
    FindOrderFound(db.orders, merchant, p.externalOrderId);
    var order := FindOrder(db.orders, merchant, p.externalOrderId);
    if order.Some? && IsCaptureEvent(p) {
      LookupsNeverAmbiguous(db, merchant, order.value);
      FirstVerifiableFound(db.cases, order.value);
      var c := FirstVerifiable(db.cases, order.value);
      if c.Some? { CoreCaseSettled(db, merchant, order.value, c.value, p, freshId); }
    }
  }

  lemma CoreHandled(db: Db, merchant: nat, p: Payload, now: int, missed: Missed, freshId: string)
    requires Core(db)
    ensures var r := HandleEvent(db, merchant, p, now, missed, freshId);
      r.Commit? ==>
        && Core(r.db) && Evolves(db, r.db) && r.db.events == db.events
        && r.db.customers == SyncCustomer(db, merchant, p, missed.customer).0.customers
        && SumCredits(r.db.customers) == SumCredits(db.customers)
             + if AddsFailure(p) then 1 else 0
  {
    SyncAllValid(db, merchant, p, missed.customer);
    SyncAllEffect(db, merchant, p, missed.customer);
    SyncCountsOnce(db, merchant, p, missed.customer);
    var (synced, order, pay) := SyncAll(db, merchant, p, missed.customer);
    CoreQuiet(db, synced);
    var r := HandleEvent(db, merchant, p, now, missed, freshId);
    if r.Commit? {
      if IsFailureEvent(p) {
        CoreCreated(synced, merchant, order, pay, p, now, missed.active);
        EvolvesTransitive(db, synced, r.db);
      } else if IsCaptureEvent(p) {
        CoreWebhookVerified(synced, merchant, p, freshId);
        EvolvesTransitive(db, synced, r.db);
      }
    }
  }

  /** The stored event is still to be handled, and its inserts meet no row they had missed. */
  predicate Proceeds(db: Db, op: Op) {
    && op.Process? && op.rawId < |db.events| && !db.events[op.rawId].processed && db.events[op.rawId].payload.Some?
    && !InsertConflict(db, db.events[op.rawId].merchant, db.events[op.rawId].payload.value, op.missed)
  }

  lemma TakenUpCommits(db: Db, m: nat, p: Payload, now: int, missed: Missed, freshId: string)
    requires Core(db) && TakenUp(p)
    ensures HandleEvent(db, m, p, now, missed, freshId).Commit?
  {
    SyncAllValid(db, m, p, missed.customer);
    SyncAllEffect(db, m, p, missed.customer);
    CoreQuiet(db, SyncAll(db, m, p, missed.customer).0);
    CoreWebhookVerified(SyncAll(db, m, p, missed.customer).0, m, p, freshId);
  }

  lemma InvMarked(db: Db, rawId: nat, before: RawEvent, counted: nat)
    requires Core(db) && UniqueEvents(db.events) && rawId < |db.events|
      && db.events[rawId] == before && !before.processed
    requires counted == if CountsAsFailure(before.(processed := true)) then 1 else 0
    requires SumCredits(db.customers) == CountFailures(db.events) + counted
    ensures Inv(MarkProcessed(db, rawId)) && Evolves(db, MarkProcessed(db, rawId))
  {
    MarkProcessedEffect(db, rawId);
    CoreQuiet(db, MarkProcessed(db, rawId));
    CountFailuresUpdate(db.events, rawId, before.(processed := true));
  }

  lemma InvProcessed(db: Db, rawId: nat, now: int, missed: Missed, freshId: string)
    requires Inv(db)
    ensures var r := ProcessRawWebhook(db, rawId, now, missed, freshId); r.Commit? ==> Inv(r.db) && Evolves(db, r.db)
  {
    EvolvesReflexive(db);
    var r := ProcessRawWebhook(db, rawId, now, missed, freshId);
    if r.Commit? && rawId < |db.events| && !db.events[rawId].processed {
      var e := db.events[rawId];
      if e.payload.None? {
        InvMarked(db, rawId, e, 0);
      } else {
        CoreHandled(db, e.merchant, e.payload.value, now, missed, freshId);
        var handled := HandleEvent(db, e.merchant, e.payload.value, now, missed, freshId).db;
        InvMarked(handled, rawId, e,
          if AddsFailure(e.payload.value) then 1 else 0);
        EvolvesTransitive(db, handled, r.db);
      }
    }
  }

  lemma InvDecisionOnly(a: Db, b: Db)
    requires Inv(a) && DecisionOnly(a, b)
    ensures Inv(b) && Evolves(a, b)
  {
    CoreQuiet(a, b);
  }

  lemma InvExecuted(db: Db, op: Op)
    requires Inv(db) && op.Execute?
    ensures Inv(Apply(db, op)) && Evolves(db, Apply(db, op))
  {
    EvolvesReflexive(db);
    if op.caseId < |db.cases| {
      var cmd := CommandOf(db, op);
      ExecuteEffect(db, cmd, op.env, op.now, op.dispatchedAt);
      var t := ExecuteCommand(db, cmd, op.env, op.now, op.dispatchedAt);
      if t.Commit? && !t.value.isDuplicate {
        ExecutorTargets(db, cmd, op.env);
        var r := RunExecutor(db, cmd, op.env).value;
        ExecutedIsQuiet(db, t.db, cmd, r, op.now, op.dispatchedAt);
        CasesSoundKept(db.cases, t.db.cases);
        MoneyQuiet(db, t.db);
        UniqueActiveKept(db.cases, t.db.cases);
        OrdersOwnedKept(db, t.db);
        KeyedOrdersKept(db.orders, t.db.orders);
        AttemptsOkExecuted(db, t.db, cmd, op.number, op.env, op.now, op.dispatchedAt);
      }
    }
  }

  /** `paid` is `db` with the order PAID and a fresh captured payment; verifying against it gives `after`. */
  ghost predicate PaidAndVerified(db: Db, paid: Db, c: nat, ref: string, after: Db) {
    && Quiet(db, paid) && NoExecution(db, paid) && paid.cases == db.cases && paid.attempts == db.attempts
    && paid.customers == db.customers && paid.events == db.events && c < |paid.cases|
    && |paid.payments| == |db.payments| + 1 && paid.payments[|db.payments|].status == PayCaptured
    && after == VerifyAndRecover(paid, c, |db.payments|, ref).0
  }

  lemma PollEffect(db: Db, c: nat, merchantExists: bool, linkPaid: bool, freshId: string)
    ensures var r := PollAndReconcile(db, c, merchantExists, linkPaid, freshId);
      r.Commit? ==>
        && c < |db.cases|
        && (r.db == db || exists paid: Db, ref: string :: PaidAndVerified(db, paid, c, ref, r.db))
  {
    var r := PollAndReconcile(db, c, merchantExists, linkPaid, freshId);
    if r.Commit? && r.db != db {
      var k := db.cases[c];
      var link := PollLink(db.attempts, c);
      var paid := db.(
        orders := db.orders[k.order := db.orders[k.order].(status := OrderPaid)],
        payments := db.payments + [Payment(k.merchant, k.order, freshId, k.amountAtRisk, k.currency, PayCaptured)]);
      assert Quiet(db, paid) && NoExecution(db, paid);
      assert PaidAndVerified(db, paid, c, link.value, r.db);
    }
  }

  lemma InvPolled(db: Db, c: nat, merchantExists: bool, linkPaid: bool, freshId: string)
    requires Inv(db)
    ensures var r := PollAndReconcile(db, c, merchantExists, linkPaid, freshId);
      r.Commit? ==> Inv(r.db) && Evolves(db, r.db)
  {
    EvolvesReflexive(db);
    PollEffect(db, c, merchantExists, linkPaid, freshId);
    var r := PollAndReconcile(db, c, merchantExists, linkPaid, freshId);
    if r.Commit? && r.db != db {
      var paid: Db, ref: string :| PaidAndVerified(db, paid, c, ref, r.db);
      CoreQuiet(db, paid);
      CoreVerified(paid, c, |db.payments|, ref);
      EvolvesTransitive(db, paid, r.db);
    }
  }

  lemma InvIngested(db: Db, merchant: nat, eventId: string, payload: Option<Payload>)
    requires Inv(db)
    ensures var db' := IngestWebhook(db, merchant, eventId, payload).0; Inv(db') && Evolves(db, db')
  {
    IngestEffect(db, merchant, eventId, payload);
    IngestKeepsCounted(db, merchant, eventId, payload);
    CoreQuiet(db, IngestWebhook(db, merchant, eventId, payload).0);
  }

  lemma InvDecided(db: Db, c: nat, ctx: Context, p: Policy, model: Model, now: int, reply: AiReply)
    requires Inv(db) && c < |db.cases|
    ensures var d := EvaluateCaseDecision(db, c, ctx, p, model, now); d.Commit? ==> Inv(d.db) && Evolves(db, d.db)
    ensures var a := EvaluateWithAi(db, c, ctx, p, model, now, reply); a.Commit? ==> Inv(a.db) && Evolves(db, a.db)
  {
    CaseDecisionIsQuiet(db, c, ctx, p, model, now);
    AiDecisionIsQuiet(db, c, ctx, p, model, now, reply);
    var d := EvaluateCaseDecision(db, c, ctx, p, model, now);
    var a := EvaluateWithAi(db, c, ctx, p, model, now, reply);
    if d.Commit? { InvDecisionOnly(db, d.db); }
    if a.Commit? { InvDecisionOnly(db, a.db); }
  }

  lemma InvReassessed(db: Db, now: int)
    requires Inv(db)
    ensures Inv(ReassessScheduled(db, now)) && Evolves(db, ReassessScheduled(db, now))
  {
    ReassessScheduledEffect(db, now);
    CoreQuiet(db, ReassessScheduled(db, now));
  }

  /** Every call of every service keeps the invariant and only lets rows evolve. */
  lemma StepKeepsInv(db: Db, op: Op)
    requires Inv(db)
    ensures Inv(Apply(db, op)) && Evolves(db, Apply(db, op))
  {
    EvolvesReflexive(db);
    match op {
      case Ingest(merchant, eventId, payload) => InvIngested(db, merchant, eventId, payload);
      case Process(rawId, now, missed, freshId) => InvProcessed(db, rawId, now, missed, freshId);
      case Decide(c, ctx, p, model, now) => if c < |db.cases| { InvDecided(db, c, ctx, p, model, now, AiDisabled); }
      case DecideWithAi(c, ctx, p, model, now, reply) =>
        if c < |db.cases| { InvDecided(db, c, ctx, p, model, now, reply); }
      case Execute(_, _, _, _, _, _, _) => InvExecuted(db, op);
      case Poll(c, merchantExists, linkPaid, freshId) => InvPolled(db, c, merchantExists, linkPaid, freshId);
      case ReassessAll(now) => InvReassessed(db, now);
    }
  }

  lemma EmptyInv()
    ensures Inv(EMPTY)
  {
  }

  /** Every run keeps the invariant, and relates any state to every later one. */
  lemma {:induction false} RunKeepsInv(db: Db, ops: seq<Op>)
    requires Inv(db)
    ensures Inv(Run(db, ops)) && Evolves(db, Run(db, ops))
    decreases |ops|
  {
    EvolvesReflexive(db);
    if ops != [] {
      StepKeepsInv(db, ops[0]);
      RunKeepsInv(Apply(db, ops[0]), ops[1..]);
      EvolvesTransitive(db, Apply(db, ops[0]), Run(db, ops));
    }
  }
}
