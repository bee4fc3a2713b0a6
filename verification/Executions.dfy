/** What executing a command writes, and where each executor's answer leaves the case. */
module Executions {
  import opened Domain
  import opened StateMachine
  import opened Tables
  import opened Services
  import opened Effects
  import opened Runs

  /** The command can be executed: its case is live and not escalated, it has an executor, and its key is new. */
  predicate Executable(db: Db, op: Op)
    requires op.Execute?
  {
    && op.caseId < |db.cases| && op.action != DO_NOTHING
    && db.cases[op.caseId].status !in {RECOVERED, UNRECOVERABLE, EXPIRED, STOPPED, ESCALATED}
    && forall i | 0 <= i < |db.attempts| :: db.attempts[i].key != CommandKey(op.caseId, op.number, op.action)
  }

  /** The statuses a case goes through when an executor wants it in `target`; there is no edge from EXECUTING back to
      DIAGNOSING, nor to ESCALATED. */
  predicate Moves(s: CaseStatus, target: CaseStatus, steps: seq<CaseStatus>) {
    match s
    case APPROVED =>
      steps == if target in {WAITING_EXTERNAL, UNRECOVERABLE} then [EXECUTING, target] else [EXECUTING]
    case EXECUTING => steps == if target in {WAITING_EXTERNAL, UNRECOVERABLE} then [target] else []
    case WAITING_EXTERNAL => steps == if target == DIAGNOSING then [DIAGNOSING] else []
    case POLICY_CHECK_PENDING => steps == if target == ESCALATED then [ESCALATED] else []
    case STRATEGY_GENERATED => steps == []
    case ENRICHING => steps == if target in {DIAGNOSING, UNRECOVERABLE} then [target] else []
    case VERIFYING => steps == if target in {DIAGNOSING, UNRECOVERABLE} then [target] else []
    case _ => steps == if target == UNRECOVERABLE then [UNRECOVERABLE] else []
  }

  /** The case after an execution: moved on, one attempt more, and for a wait its next look; all else stays. */
  predicate CaseExecuted(c: Case, c': Case, op: Op, target: CaseStatus)
    requires op.Execute?
  {
    && c.trail <= c'.trail && Moves(c.status, target, c'.trail[|c.trail|..])
    && c' == c.(
         status := if |c'.trail| == |c.trail| then c.status else c'.trail[|c'.trail| - 1], trail := c'.trail,
         attemptCount := c.attemptCount + 1, lastAttemptAt := Some(op.now), scheduledAt := c'.scheduledAt)
    && if op.action != WAIT_AND_REASSESS then c'.scheduledAt == c.scheduledAt
       else
         var seconds := if op.note.delaySeconds in {None, Some(0)} then 30 * 60 else op.note.delaySeconds.value;
         c'.scheduledAt == Some(op.dispatchedAt + seconds * 1000000)
  }

  /** The executed command: one attempt under its key, the case moved on, two ledger entries, and nothing else. */
  predicate CommandExecuted(
    db: Db, after: Db, op: Op, status: AttemptStatus, ref: Option<string>, target: CaseStatus)
    requires op.Execute? && op.caseId < |db.cases|
  {
    var c, n, orchestrator := db.cases[op.caseId], |db.attempts|, SystemActor("action-orchestrator");
    && |after.cases| == |db.cases| && CaseExecuted(c, after.cases[op.caseId], op, target)
    && after == db.(
         cases := db.cases[op.caseId := after.cases[op.caseId]],
         attempts := db.attempts + [Attempt(
           op.caseId, c.merchant, op.action, CommandKey(op.caseId, op.number, op.action), status, ref)],
         ledger := db.ledger + [
           Audit(c.merchant, AttemptEntity(n), AttemptCreated, orchestrator),
           Audit(c.merchant, AttemptEntity(n), if status == FAILED then ExecutionFailed else GatewayAccepted,
             orchestrator)])
  }

  function StepsTo(s: CaseStatus, target: CaseStatus): seq<CaseStatus> {
    (if s == APPROVED then [EXECUTING] else [])
    + if CanTransition(if s == APPROVED then EXECUTING else s, target) then [target] else []
  }

  lemma StepsAreMoves(s: CaseStatus, target: CaseStatus)
    requires !Terminal(s) && s != ESCALATED
    requires target in {UNRECOVERABLE, DIAGNOSING, WAITING_EXTERNAL, ESCALATED}
    ensures Moves(s, target, StepsTo(s, target))
  {
    assert [EXECUTING] + [target] == [EXECUTING, target] && [EXECUTING] + [] == [EXECUTING];
    assert [] + [target] == [target];
  }

  lemma StepsAreWalked(c: Case, cmd: Command, r: ExecResult, now: int, dispatchedAt: int)
    ensures var c' := AfterExecution(c, cmd, r, now, dispatchedAt);
      var steps := StepsTo(c.status, r.target);
      && c'.trail == c.trail + steps && c'.trail[|c.trail|..] == steps
      && c'.status == if steps == [] then c.status else steps[|steps| - 1]
  {
    var steps := StepsTo(c.status, r.target);
    var c' := AfterExecution(c, cmd, r, now, dispatchedAt);
    assert c'.trail == c.trail + steps;
  }

  lemma OtherFieldsExecuted(c: Case, cmd: Command, r: ExecResult, now: int, dispatchedAt: int)
    ensures var c' := AfterExecution(c, cmd, r, now, dispatchedAt);
      && c' == c.(
           status := c'.status, trail := c'.trail, attemptCount := c.attemptCount + 1, lastAttemptAt := Some(now),
           scheduledAt := c'.scheduledAt)
      && c'.scheduledAt == ScheduledAt(c, cmd, dispatchedAt)
  {
  }

  lemma MovesAsTheTable(c: Case, c': Case, cmd: Command, r: ExecResult, op: Op)
    requires !Terminal(c.status) && c.status != ESCALATED && op.Execute?
    requires r.target in {UNRECOVERABLE, DIAGNOSING, WAITING_EXTERNAL, ESCALATED}
    requires cmd.action == op.action && cmd.payload == op.note
    requires c' == AfterExecution(c, cmd, r, op.now, op.dispatchedAt)
    ensures CaseExecuted(c, c', op, r.target)
  {
    var steps := StepsTo(c.status, r.target);
    StepsAreMoves(c.status, r.target);
    StepsAreWalked(c, cmd, r, op.now, op.dispatchedAt);
    OtherFieldsExecuted(c, cmd, r, op.now, op.dispatchedAt);
    assert c.trail <= c'.trail && |c'.trail| == |c.trail| + |steps|;
    assert steps != [] ==> steps[|steps| - 1] == c'.trail[|c'.trail| - 1];
  }

  /** Executing a command that cannot be changes nothing; any other has exactly its executor's answer written. */
  lemma ExecutionWritesExactly(db: Db, op: Op)
    requires op.Execute?
    ensures !Executable(db, op) ==> Apply(db, op) == db
    ensures Executable(db, op) ==>
      && RunExecutor(db, CommandOf(db, op), op.env).Some?
      && var r := RunExecutor(db, CommandOf(db, op), op.env).value;
         CommandExecuted(db, Apply(db, op), op, r.attemptStatus, r.gatewayRef, r.target)
  {
    if op.caseId < |db.cases| {
      var cmd := CommandOf(db, op);
      FindAttemptFound(db.attempts, cmd.key);
      if Executable(db, op) {
        ExecuteEffect(db, cmd, op.env, op.now, op.dispatchedAt);
        ExecutorTargets(db, cmd, op.env);
        var r := RunExecutor(db, cmd, op.env).value;
        MovesAsTheTable(db.cases[op.caseId], Apply(db, op).cases[op.caseId], cmd, r, op);
        SuccessIsNotFailure(db, cmd, op.env);
        LedgerOfTwo(db.ledger, Apply(db, op).ledger, db.cases[op.caseId].merchant, |db.attempts|, r.isSuccess);
      }
    }
  }

  lemma SuccessIsNotFailure(db: Db, cmd: Command, env: Env)
    requires cmd.caseId < |db.cases|
    ensures var r := RunExecutor(db, cmd, env); r.Some? ==> (r.value.isSuccess <==> r.value.attemptStatus != FAILED)
  {
  }

  lemma LedgerOfTwo(a: seq<Audit>, b: seq<Audit>, m: nat, n: nat, isSuccess: bool)
    requires b == a + [Audit(m, AttemptEntity(n), AttemptCreated, ORCHESTRATOR)]
      + [Audit(m, AttemptEntity(n), if isSuccess then GatewayAccepted else ExecutionFailed, ORCHESTRATOR)]
    ensures b == a + [
      Audit(m, AttemptEntity(n), AttemptCreated, SystemActor("action-orchestrator")),
      Audit(m, AttemptEntity(n), if isSuccess then GatewayAccepted else ExecutionFailed,
        SystemActor("action-orchestrator"))]
  {
  }

  // ---- Payment links ----

  predicate RowsThere(db: Db, op: Op)
    requires op.Execute? && op.caseId < |db.cases|
  {
    db.cases[op.caseId].order < |db.orders| && op.env.merchantExists
  }

  /** A link attempt succeeds exactly when order and merchant exist and the gateway accepts, and carries the gateway's
      own link id then, and none otherwise. An approved case is given up for a missing row, stays in EXECUTING when the
      gateway raised or may be tried again, and waits when it accepted or declined for good. */
  lemma LinkExecutionExactly(db: Db, op: Op)
    requires op.Execute? && Executable(db, op) && op.action == PAYMENT_LINK
    ensures var reply := op.env.reply;
      var accepted := RowsThere(db, op) && reply.GatewayOk?;
      var status := if accepted then ACKNOWLEDGED else FAILED;
      var target :=
        if !RowsThere(db, op) then UNRECOVERABLE
        else if reply.GatewayOk? || (reply.GatewayDeclined? && !reply.isRetryable) then WAITING_EXTERNAL
        else DIAGNOSING;
      CommandExecuted(db, Apply(db, op), op, status, if accepted then reply.linkId else None, target)
    ensures op.caseId < |Apply(db, op).cases|
    ensures db.cases[op.caseId].status == APPROVED ==>
      var s, reply := Apply(db, op).cases[op.caseId].status, op.env.reply;
      && (s == UNRECOVERABLE <==> !RowsThere(db, op))
      && (s == EXECUTING <==>
            RowsThere(db, op) && (reply.GatewayRaised? || (reply.GatewayDeclined? && reply.isRetryable)))
      && (s == WAITING_EXTERNAL <==>
            RowsThere(db, op) && (reply.GatewayOk? || (reply.GatewayDeclined? && !reply.isRetryable)))
  {
    ExecutionWritesExactly(db, op);
    var r := RunExecutor(db, CommandOf(db, op), op.env).value;
    CaseEnds(db.cases[op.caseId], Apply(db, op).cases[op.caseId], op, r.target);
  }

  /** Where an approved case ends. */
  lemma CaseEnds(c: Case, c': Case, op: Op, target: CaseStatus)
    requires op.Execute? && CaseExecuted(c, c', op, target)
    ensures c.status == APPROVED ==>
      c'.status == if target in {WAITING_EXTERNAL, UNRECOVERABLE} then target else EXECUTING
  {
  }

  // ---- Reminders ----

  /** The link a reminder is about: of the newest acknowledged or succeeded payment-link attempt of the case. */
  predicate Reminds(attempts: seq<Attempt>, caseId: nat, ref: string) {
    exists i | 0 <= i < |attempts| ::
      && HeldLink(attempts[i], caseId) && attempts[i].gatewayRef == Some(ref)
      && forall j | i < j < |attempts| :: !HeldLink(attempts[j], caseId)
  }

  predicate HeldLink(a: Attempt, caseId: nat) {
    a.caseId == caseId && a.action == PAYMENT_LINK && a.gatewayRef.Some? && a.status in {ACKNOWLEDGED, SUCCEEDED}
  }

  lemma PriorLinkReminds(attempts: seq<Attempt>, caseId: nat)
    ensures var link := PriorLink(attempts, caseId);
      && (link.None? ==> forall ref :: !Reminds(attempts, caseId, ref))
      && (link.Some? ==> forall ref :: Reminds(attempts, caseId, ref) <==> ref == link.value)
  {
    PriorLinkIsNewest(attempts, caseId);
    var link := PriorLink(attempts, caseId);
    assert forall i | 0 <= i < |attempts| :: HoldsLink(attempts[i], caseId) <==> HeldLink(attempts[i], caseId);
    if link.Some? {
      var i :| 0 <= i < |attempts| && HoldsLink(attempts[i], caseId) && attempts[i].gatewayRef == link
        && forall j | i < j < |attempts| :: !HoldsLink(attempts[j], caseId);
      assert Reminds(attempts, caseId, link.value);
      forall ref | Reminds(attempts, caseId, ref) ensures ref == link.value {
        var k :| 0 <= k < |attempts| && HeldLink(attempts[k], caseId) && attempts[k].gatewayRef == Some(ref)
          && forall j | k < j < |attempts| :: !HeldLink(attempts[j], caseId);
        assert k == i;
      }
    }
  }

  /** `ref` is the link to remind of; the empty text when there is none, or when it has no reference. */
  ghost predicate LinkToRemindOf(db: Db, op: Op, ref: string)
    requires op.Execute?
  {
    Reminds(db.attempts, op.caseId, ref) || (ref == "" && forall r :: !Reminds(db.attempts, op.caseId, r))
  }

  lemma ReminderAnswers(db: Db, op: Op, ref: string)
    requires op.Execute? && op.caseId < |db.cases| && op.action == CUSTOMER_REMINDER && LinkToRemindOf(db, op, ref)
    ensures var r := RunExecutor(db, CommandOf(db, op), op.env);
      var sent := ref != "" && op.env.merchantExists;
      && r.Some?
      && r.value.attemptStatus == (if sent && op.env.reply.GatewayOk? then ACKNOWLEDGED else FAILED)
      && r.value.gatewayRef == (if sent then Some(ref) else None)
      && r.value.target == (if sent then WAITING_EXTERNAL else if ref == "" then DIAGNOSING else UNRECOVERABLE)
  {
    PriorLinkReminds(db.attempts, op.caseId);
    var link := PriorLink(db.attempts, op.caseId);
    assert link.Some? ==> Reminds(db.attempts, op.caseId, link.value);
  }

  /** A reminder succeeds exactly when there is a link to remind of, the merchant exists and the gateway accepts; it
      carries that link once it was sent out at all. An approved case stays in EXECUTING without a link, is given up
      without the merchant, and waits otherwise, whether the gateway accepted or not. */
  lemma ReminderExecutionExactly(db: Db, op: Op, ref: string)
    requires op.Execute? && Executable(db, op) && op.action == CUSTOMER_REMINDER && LinkToRemindOf(db, op, ref)
    ensures var sent := ref != "" && op.env.merchantExists;
      var status := if sent && op.env.reply.GatewayOk? then ACKNOWLEDGED else FAILED;
      var target := if sent then WAITING_EXTERNAL else if ref == "" then DIAGNOSING else UNRECOVERABLE;
      CommandExecuted(db, Apply(db, op), op, status, if sent then Some(ref) else None, target)
    ensures op.caseId < |Apply(db, op).cases|
    ensures db.cases[op.caseId].status == APPROVED ==>
      var s := Apply(db, op).cases[op.caseId].status;
      && (s == EXECUTING <==> ref == "") && (s == UNRECOVERABLE <==> ref != "" && !op.env.merchantExists)
      && (s == WAITING_EXTERNAL <==> ref != "" && op.env.merchantExists)
  {
    ExecutionWritesExactly(db, op);
    ReminderAnswers(db, op, ref);
    var r := RunExecutor(db, CommandOf(db, op), op.env).value;
    CaseEnds(db.cases[op.caseId], Apply(db, op).cases[op.caseId], op, r.target);
  }

  // ---- Waiting and calling in a person ----

  /** Both succeed without the gateway and carry no link. An approved case then waits, or stays in EXECUTING, since
      there is no edge from there to ESCALATED. */
  lemma InternalExecutionExactly(db: Db, op: Op)
    requires op.Execute? && Executable(db, op) && op.action in {WAIT_AND_REASSESS, HUMAN_ESCALATION}
    ensures CommandExecuted(
      db, Apply(db, op), op, SUCCEEDED, None, if op.action == WAIT_AND_REASSESS then WAITING_EXTERNAL else ESCALATED)
    ensures op.caseId < |Apply(db, op).cases|
    ensures db.cases[op.caseId].status == APPROVED ==>
      Apply(db, op).cases[op.caseId].status == if op.action == WAIT_AND_REASSESS then WAITING_EXTERNAL else EXECUTING
  {
    ExecutionWritesExactly(db, op);
    var r := RunExecutor(db, CommandOf(db, op), op.env).value;
    CaseEnds(db.cases[op.caseId], Apply(db, op).cases[op.caseId], op, r.target);
  }

  // ---- Taking waiting cases up again ----

  /** A reassessment sends exactly the cases that wait and are due back to DETECTED, off the schedule, and changes
      nothing else. */
  lemma ReassessmentWritesExactly(db: Db, op: Op)
    requires op.ReassessAll?
    ensures var after := Apply(db, op);
      && |after.cases| == |db.cases| && after == db.(cases := after.cases)
      && forall i | 0 <= i < |db.cases| ::
           var c := db.cases[i];
           after.cases[i] ==
             if c.status == WAITING_EXTERNAL && c.scheduledAt.Some? && op.now >= c.scheduledAt.value
             then c.(status := DETECTED, trail := c.trail + [DETECTED], scheduledAt := None)
             else c
  {
  }
}
