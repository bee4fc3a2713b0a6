/**
 Exactly-once effect on top of at-least-once delivery: the event id, the processed flag and the idempotency key
 make every repeated call a no-op, wherever in a run it comes.
 */
module ExactlyOnce {
  import opened Domain
  import opened Tables
  import opened Services
  import opened Lifecycle
  import opened Effects
  import opened Invariants
  import opened Runs

  // ---- Work and its keys ----

  datatype WorkKey = Delivery(merchant: nat, eventId: string) | Task(rawId: nat) | Dispatch(key: string)

  function KeyOf(op: Op): Option<WorkKey> {
    match op
    case Ingest(merchant, eventId, _) => Some(Delivery(merchant, eventId))
    case Process(rawId, _, _, _) => Some(Task(rawId))
    case Execute(caseId, action, number, _, _, _, _) => Some(Dispatch(CommandKey(caseId, number, action)))
    case _ => None
  }

  /** The database holds the trace that work under this key leaves. */
  predicate Spent(db: Db, key: WorkKey) {
    match key
    case Delivery(merchant, eventId) => FindEvent(db.events, merchant, eventId).Some?
    case Task(rawId) => rawId < |db.events| && db.events[rawId].processed
    case Dispatch(k) => FindAttempt(db.attempts, k).Some?
  }

  predicate Repeats(db: Db, op: Op) {
    KeyOf(op).Some? && Spent(db, KeyOf(op).value)
  }

  lemma RepeatChangesNothing(db: Db, op: Op)
    requires Repeats(db, op)
    ensures Apply(db, op) == db
  {
  }

  /** A keyed call that changes the database leaves its trace. */
  lemma ChangeIsSpent(db: Db, op: Op)
    requires KeyOf(op).Some? && Apply(db, op) != db
    ensures Spent(Apply(db, op), KeyOf(op).value)
  {
    var db' := Apply(db, op);
    match op {
      case Ingest(merchant, eventId, payload) =>
        assert db'.events[..|db.events|] == db.events;
      case Process(rawId, now, missed, freshId) =>
        if db.events[rawId].payload.Some? {
          HandleEventKeepsEvents(
            db, db.events[rawId].merchant, db.events[rawId].payload.value, now, missed, freshId);
        }
      case Execute(caseId, _, _, _, env, now, dispatchedAt) =>
        ExecuteEffect(db, CommandOf(db, op), env, now, dispatchedAt);
        assert db'.attempts[..|db.attempts|] == db.attempts;
    }
  }

  lemma SpentForEver(a: Db, b: Db, key: WorkKey)
    requires Evolves(a, b) && Spent(a, key)
    ensures Spent(b, key)
  {
    match key {
      case Delivery(merchant, eventId) =>
        FindEventFound(a.events, merchant, eventId);
        FindEventFound(b.events, merchant, eventId);
        var i := FindEvent(a.events, merchant, eventId).value;
        assert EventEvolves(a.events[i], b.events[i]);
      case Task(rawId) =>
        assert EventEvolves(a.events[rawId], b.events[rawId]);
      case Dispatch(k) =>
        FindAttemptFound(a.attempts, k);
        FindAttemptFound(b.attempts, k);
        var i := FindAttempt(a.attempts, k).value;
        assert AttemptEvolves(a.attempts[i], b.attempts[i]);
    }
  }

  /** Repeating a call whose first go took effect changes nothing, however much has happened in between. */
  lemma RepeatInvisible(db: Db, first: Op, between: seq<Op>, again: Op)
    requires Inv(db) && KeyOf(first).Some? && KeyOf(again) == KeyOf(first) && Apply(db, first) != db
    ensures var later := Run(Apply(db, first), between); Apply(later, again) == later
  {
    StepKeepsInv(db, first);
    RunKeepsInv(Apply(db, first), between);
    ChangeIsSpent(db, first);
    SpentForEver(Apply(db, first), Run(Apply(db, first), between), KeyOf(first).value);
    RepeatChangesNothing(Run(Apply(db, first), between), again);
  }

  // ---- Whole schedules ----

  /** The calls of a schedule that change the database: no repeats, no aborted tasks. */
  function Effective(db: Db, ops: seq<Op>): seq<Op>
    decreases |ops|
  {
    if ops == [] then []
    else (if Apply(db, ops[0]) == db then [] else [ops[0]]) + Effective(Apply(db, ops[0]), ops[1..])
  }

  /** No two calls of a schedule work under one key. */
  predicate NoKeyTwice(ops: seq<Op>) {
    forall i, j | 0 <= i < j < |ops| && KeyOf(ops[i]).Some? :: KeyOf(ops[j]) != KeyOf(ops[i])
  }

  lemma {:induction false} EffectiveAvoidsSpent(db: Db, ops: seq<Op>, key: WorkKey)
    requires Inv(db) && Spent(db, key)
    ensures forall op | op in Effective(db, ops) :: KeyOf(op) != Some(key)
    decreases |ops|
  {
    if ops != [] {
      StepKeepsInv(db, ops[0]);
      SpentForEver(db, Apply(db, ops[0]), key);
      EffectiveAvoidsSpent(Apply(db, ops[0]), ops[1..], key);
      if KeyOf(ops[0]) == Some(key) { RepeatChangesNothing(db, ops[0]); }
    }
  }

  /** In any schedule, of all the calls under one key at most one changes the database. */
  lemma {:induction false} EachKeyWorksOnce(db: Db, ops: seq<Op>)
    requires Inv(db)
    ensures NoKeyTwice(Effective(db, ops))
    decreases |ops|
  {
    if ops != [] {
      var db' := Apply(db, ops[0]);
      StepKeepsInv(db, ops[0]);
      EachKeyWorksOnce(db', ops[1..]);
      var rest := Effective(db', ops[1..]);
      if db' == db {
        assert Effective(db, ops) == rest;
      } else {
        assert Effective(db, ops)[1..] == rest;
        if KeyOf(ops[0]).Some? {
          ChangeIsSpent(db, ops[0]);
          EffectiveAvoidsSpent(db', ops[1..], KeyOf(ops[0]).value);
        }
      }
    }
  }

  /** The schedule without the calls under keys already done: deliveries known, tasks processed, commands attempted. */
  function OnceDone(db: Db, ops: seq<Op>, done: set<WorkKey>): seq<Op>
    decreases |ops|
  {
    if ops == [] then []
    else
      var key := KeyOf(ops[0]);
      if key.Some? && key.value in done then OnceDone(db, ops[1..], done)
      else
        var db' := Apply(db, ops[0]);
        [ops[0]] + OnceDone(db', ops[1..], done + if key.Some? && Spent(db', key.value) then {key.value} else {})
  }

  lemma {:induction false} DoneNeverAgain(db: Db, ops: seq<Op>, done: set<WorkKey>)
    ensures forall op | op in OnceDone(db, ops, done) :: KeyOf(op).None? || KeyOf(op).value !in done
    decreases |ops|
  {
    if ops != [] {
      var key := KeyOf(ops[0]);
      if key.Some? && key.value in done {
        DoneNeverAgain(db, ops[1..], done);
      } else {
        var db' := Apply(db, ops[0]);
        DoneNeverAgain(db', ops[1..], done + if key.Some? && Spent(db', key.value) then {key.value} else {});
      }
    }
  }

  /** A call whose key was used before follows only goes that left no trace, such as aborted tasks. */
  predicate OnlyFailuresRepeat(db: Db, ops: seq<Op>) {
    forall i, j | 0 <= i < j < |ops| && KeyOf(ops[i]).Some? && KeyOf(ops[j]) == KeyOf(ops[i]) ::
      !Spent(Run(db, ops[..i + 1]), KeyOf(ops[i]).value)
  }

  /** Putting a call in front of a schedule that does not use its key again, unless it leaves no trace. */
  lemma FirstGo(db: Db, op: Op, rest: seq<Op>)
    requires OnlyFailuresRepeat(Apply(db, op), rest)
    requires KeyOf(op).Some? && Spent(Apply(db, op), KeyOf(op).value) ==> forall x | x in rest :: KeyOf(x) != KeyOf(op)
    ensures OnlyFailuresRepeat(db, [op] + rest)
  {
    var ops := [op] + rest;
    forall i, j | 0 <= i < j < |ops| && KeyOf(ops[i]).Some? && KeyOf(ops[j]) == KeyOf(ops[i])
      ensures !Spent(Run(db, ops[..i + 1]), KeyOf(ops[i]).value)
    {
      assert ops[..i + 1] == [op] + rest[..i];
      assert ops[..i + 1][1..] == rest[..i];
      assert ops[j] == rest[j - 1] && ops[j] in rest;
      if i == 0 {
        assert rest[..0] == [];
      } else {
        assert ops[i] == rest[i - 1];
        assert rest[..i - 1 + 1] == rest[..i];
      }
    }
  }

  /** Erasing from any schedule every delivery, task and command whose work is done by then leaves the final database
      as it was; in what remains only goes that left no trace are ever repeated. */
  lemma {:induction false} RepeatsCanBeErased(db: Db, ops: seq<Op>, done: set<WorkKey>)
    requires Inv(db) && forall key | key in done :: Spent(db, key)
    ensures Run(db, OnceDone(db, ops, done)) == Run(db, ops)
    ensures OnlyFailuresRepeat(db, OnceDone(db, ops, done))
    decreases |ops|
  {
    if ops != [] {
      var key := KeyOf(ops[0]);
      if key.Some? && key.value in done {
        RepeatChangesNothing(db, ops[0]);
        RepeatsCanBeErased(db, ops[1..], done);
      } else {
        var db' := Apply(db, ops[0]);
        var done' := done + if key.Some? && Spent(db', key.value) then {key.value} else {};
        StepKeepsInv(db, ops[0]);
        forall k | k in done' ensures Spent(db', k) {
          if k in done { SpentForEver(db, db', k); }
        }
        RepeatsCanBeErased(db', ops[1..], done');
        DoneNeverAgain(db', ops[1..], done');
        FirstGo(db, ops[0], OnceDone(db', ops[1..], done'));
        assert OnceDone(db, ops, done)[1..] == OnceDone(db', ops[1..], done');
      }
    }
  }

  /** The schedule with every delivery after the first of its event id left out. */
  function OnceDelivered(ops: seq<Op>, seen: set<WorkKey>): seq<Op>
    decreases |ops|
  {
    if ops == [] then []
    else if ops[0].Ingest? && KeyOf(ops[0]).value in seen then OnceDelivered(ops[1..], seen)
    else [ops[0]] + OnceDelivered(ops[1..], seen + if ops[0].Ingest? then {KeyOf(ops[0]).value} else {})
  }

  /** The gateway may deliver each event once or many times: the final database is the same. */
  lemma {:induction false} DuplicateDeliveriesInvisible(db: Db, ops: seq<Op>, seen: set<WorkKey>)
    requires Inv(db) && forall key | key in seen :: Spent(db, key)
    ensures Run(db, OnceDelivered(ops, seen)) == Run(db, ops)
    decreases |ops|
  {
    if ops != [] {
      var db' := Apply(db, ops[0]);
      StepKeepsInv(db, ops[0]);
      forall key | key in seen ensures Spent(db', key) { SpentForEver(db, db', key); }
      if ops[0].Ingest? {
        var key := KeyOf(ops[0]).value;
        if key in seen {
          RepeatChangesNothing(db, ops[0]);
          DuplicateDeliveriesInvisible(db, ops[1..], seen);
        } else {
          if db' == db {
            assert FindEvent(db.events, key.merchant, key.eventId).Some?;
          } else {
            ChangeIsSpent(db, ops[0]);
          }
          DuplicateDeliveriesInvisible(db', ops[1..], seen + {key});
          assert OnceDelivered(ops, seen)[1..] == OnceDelivered(ops[1..], seen + {key});
        }
      } else {
        DuplicateDeliveriesInvisible(db', ops[1..], seen);
        assert seen + {} == seen;
        assert OnceDelivered(ops, seen)[1..] == OnceDelivered(ops[1..], seen);
      }
    }
  }

  // ---- Commands ----

  /** The attempt that holds a key is found again in every later table. */
  lemma AttemptStaysFound(a: seq<Attempt>, b: seq<Attempt>, id: nat)
    requires UniqueKeys(b) && AttemptsEvolve(a, b) && id < |a|
    ensures b[id] == a[id].(status := b[id].status) && FindAttempt(b, a[id].key) == Some(id)
  {
    assert AttemptEvolves(a[id], b[id]);
    FindAttemptFound(b, a[id].key);
    assert b[FindAttempt(b, a[id].key).value].key == b[id].key;
  }

  lemma RunKeepsAttempts(db: Db, ops: seq<Op>)
    requires Inv(db)
    ensures var later := Run(db, ops);
      UniqueKeys(later.attempts) && AttemptsEvolve(db.attempts, later.attempts) && |db.cases| <= |later.cases|
  {
    RunKeepsInv(db, ops);
  }

  lemma FirstExecutionWrites(db: Db, op: Op)
    requires op.Execute? && op.caseId < |db.cases|
    requires var t := ExecuteCommand(db, CommandOf(db, op), op.env, op.now, op.dispatchedAt);
      t.Commit? && !t.value.isDuplicate
    ensures var db' := Apply(db, op);
      && |db'.cases| == |db.cases| && |db'.attempts| == |db.attempts| + 1
      && var added := db'.attempts[|db.attempts|];
         added.caseId == op.caseId && added.action == op.action
         && added.key == CommandKey(op.caseId, op.number, op.action)
  {
    ExecuteEffect(db, CommandOf(db, op), op.env, op.now, op.dispatchedAt);
  }

  lemma FoundCommandsChangeNothing(db: Db, cmd: Command, env: Env, now: int, dispatchedAt: int, id: nat)
    requires cmd.caseId < |db.cases| && FindAttempt(db.attempts, cmd.key) == Some(id)
    ensures ExecuteCommand(db, cmd, env, now, dispatchedAt) == Commit(db, ExecutionValue(id, true))
  {
  }

  /** A command that made an attempt, executed again at any later point, commits no change and returns that very
      attempt, which is on the command's case, for the command's action, and the only one with its key. */
  lemma RepeatedCommandReturnsFirstAttempt(db: Db, first: Op, between: seq<Op>, again: Op)
    requires Inv(db) && first.Execute? && first.caseId < |db.cases|
    requires again.Execute? && KeyOf(again) == KeyOf(first)
    requires var t := ExecuteCommand(db, CommandOf(db, first), first.env, first.now, first.dispatchedAt);
      t.Commit? && !t.value.isDuplicate
    ensures var later := Run(Apply(db, first), between);
      var id := |db.attempts|;
      && again.caseId == first.caseId && again.caseId < |later.cases|
      && ExecuteCommand(later, CommandOf(later, again), again.env, again.now, again.dispatchedAt)
         == Commit(later, ExecutionValue(id, true))
      && id < |later.attempts| && later.attempts[id].caseId == again.caseId && later.attempts[id].action == again.action
      && UniqueKeys(later.attempts)
  {
    var db1 := Apply(db, first);
    var later := Run(db1, between);
    StepKeepsInv(db, first);
    RunKeepsAttempts(db1, between);
    CommandKeyInjective(first.caseId, first.number, first.action, again.caseId, again.number, again.action);
    FirstExecutionWrites(db, first);
    AttemptStaysFound(db1.attempts, later.attempts, |db.attempts|);
    FoundCommandsChangeNothing(later, CommandOf(later, again), again.env, again.now, again.dispatchedAt, |db.attempts|);
  }
}
