/**
 What a decision leaves behind, from the proposal, the case, the policy and the clock: which status, which action, which
 rule, and everything that is written for it.
 */
module Verdicts {
  import opened Domain
  import opened StateMachine
  import opened Tables
  import opened Decision
  import opened Services
  import opened Effects

  // ---- The three ways a decision ends ----

  const SECOND: int := 1000000

  /** Too late, or no attempts left with the merchant. */
  predicate Spent(c: Case, p: Policy, now: int) {
    now >= c.deadline || c.attemptCount >= p.maxAttempts
  }

  /** The last attempt is too recent for an intervention. */
  predicate Cooling(proposed: ActionType, c: Case, p: Policy, now: int) {
    && proposed in {PAYMENT_LINK, CUSTOMER_REMINDER, HUMAN_ESCALATION}
    && c.lastAttemptAt.Some? && now - c.lastAttemptAt.value < p.cooldownMinutes * 60 * SECOND
  }

  predicate FraudStops(proposed: ActionType, c: Case) {
    c.category == Some(FRAUD_RISK_BLOCK) && proposed != DO_NOTHING
  }

  predicate TooValuable(proposed: ActionType, c: Case, p: Policy) {
    c.amountAtRisk >= p.highValueThreshold && proposed != HUMAN_ESCALATION
  }

  predicate Refuses(proposed: ActionType, c: Case, p: Policy, now: int) {
    || Spent(c, p, now)
    || (!Cooling(proposed, c, p, now)
        && (FraudStops(proposed, c)
            || (!TooValuable(proposed, c, p) && proposed == DO_NOTHING && DO_NOTHING in p.disallowed)))
  }

  predicate CallsInPerson(proposed: ActionType, c: Case, p: Policy, now: int) {
    && !Spent(c, p, now) && !Cooling(proposed, c, p, now) && !FraudStops(proposed, c)
    && TooValuable(proposed, c, p)
  }

  /** The wait that is put in place of an intervention ends in the last second of the cooldown. */
  predicate EndsCooldown(delaySeconds: Option<int>, c: Case, p: Policy, now: int) {
    && delaySeconds.Some? && c.lastAttemptAt.Some?
    && var end := c.lastAttemptAt.value + p.cooldownMinutes * 60 * SECOND;
       && delaySeconds.value >= 0 && end - SECOND < now + delaySeconds.value * SECOND <= end
  }

  /** The policy's answer to what the pipeline proposed. */
  predicate Answers(r: PolicyResult, proposed: ActionType, c: Case, p: Policy, now: int) {
    if Refuses(proposed, c, p, now) then
      && r.authorized == DO_NOTHING && r.delaySeconds.None?
      && r.verdict == (if !Spent(c, p, now) && FraudStops(proposed, c) then VerdictRejected else VerdictModified)
      && r.rule == (if now >= c.deadline then DEADLINE_EXPIRED
                    else if c.attemptCount >= p.maxAttempts then MAX_ATTEMPTS_EXCEEDED
                    else if FraudStops(proposed, c) then FRAUD_RISK_GUARD
                    else ACTION_DISALLOWED_BY_MERCHANT)
    else if CallsInPerson(proposed, c, p, now) then
      r == PolicyResult(VerdictEscalated, HUMAN_ESCALATION, HIGH_VALUE_THRESHOLD_EXCEEDED, None)
    else if Cooling(proposed, c, p, now) then
      && r.verdict == VerdictModified && r.authorized == WAIT_AND_REASSESS && r.rule == COOLDOWN_ACTIVE
      && EndsCooldown(r.delaySeconds, c, p, now)
    else
      r == PolicyResult(VerdictApproved, proposed,
        if proposed == DO_NOTHING then NO_INTERVENTION_AUTHORIZED else POLICY_APPROVAL_CLEARED, None)
  }

  /** What the case is left in. */
  predicate LeavesStatus(s: CaseStatus, proposed: ActionType, c: Case, p: Policy, now: int) {
    && (s == REJECTED <==> Refuses(proposed, c, p, now))
    && (s == ESCALATED <==> CallsInPerson(proposed, c, p, now))
    && s in {REJECTED, ESCALATED, APPROVED}
  }

  lemma CooldownEndsToTheSecond(remaining: int)
    requires remaining > 0
    ensures 0 <= remaining / SECOND && remaining - SECOND < remaining / SECOND * SECOND <= remaining
  {
  }

  /** For every AI reply, the answer of the policy engine to the pipeline's proposal, and the status it stands for. */
  lemma PipelineAnswersExactly(reply: AiReply, model: Model, c: Case, ctx: Context, p: Policy, now: int)
    requires c.status !in {RECOVERED, UNRECOVERABLE, EXPIRED, STOPPED}
    ensures Rankings(model, c, ctx, p) != []
    ensures var proposed, r := Proposed(reply, model, c, ctx, p), Authorize(reply, model, c, ctx, p, now);
      Answers(r, proposed, c, p, now) && LeavesStatus(StatusFor(r), proposed, c, p, now)
  {
    PipelineRules(reply, model, c, ctx, p, now);
    CandidatesExact(c, ctx, p);
    var proposed := Proposed(reply, model, c, ctx, p);
    if Cooling(proposed, c, p, now) {
      CooldownEndsToTheSecond(p.cooldownMinutes * 60 * SECOND - (now - c.lastAttemptAt.value));
    }
    assert proposed in p.disallowed ==> proposed == DO_NOTHING;
  }

  // ---- What a decision writes ----

  /** The numbers stored on the case make sense, so a snapshot can be built from it. */
  predicate Readable(c: Case) {
    && c.amountAtRisk >= 0 && c.amountRecovered >= 0 && |c.currency| == 3
    && (c.probability.Some? ==> 0 <= c.probability.value <= 10000)
    && (c.expectedValue.Some? ==> c.expectedValue.value >= 0)
  }

  /** A decision commits: on a readable case that awaits one; an escalated case can only be approved. */
  predicate Commits(proposed: ActionType, c: Case, p: Policy, now: int) {
    && Readable(c)
    && (c.status in {DIAGNOSING, STRATEGY_GENERATED, POLICY_CHECK_PENDING}
        || (c.status == ESCALATED && !Refuses(proposed, c, p, now) && !CallsInPerson(proposed, c, p, now)))
  }

  function StepsToPolicy(s: CaseStatus): seq<CaseStatus> {
    if s == DIAGNOSING then [STRATEGY_GENERATED, POLICY_CHECK_PENDING]
    else if s == STRATEGY_GENERATED then [POLICY_CHECK_PENDING]
    else []
  }

  /** The case after a decision: its walk to the verdict and the best estimate; besides these only the AI's confidence
      and diagnosis may differ. */
  predicate CaseDecided(c: Case, c': Case, top: ErvResult) {
    c' == c.(
      status := c'.status, trail := c.trail + StepsToPolicy(c.status) + [c'.status],
      probability := Some(top.probability), expectedValue := Some(top.net),
      confidence := c'.confidence, diagnosis := c'.diagnosis)
  }

  /** The decision's row: what was on offer, what was proposed, and the policy's answer to it. */
  predicate RowStates(
    row: DecisionRow, id: nat, c: Case, ctx: Context, p: Policy, model: Model, now: int, proposed: ActionType)
  {
    && row.caseId == id && row.merchant == c.merchant && row.attemptNumber == c.attemptCount + 1
    && row.candidates == Candidates(c, ctx, p) && row.ervTable == Rankings(model, c, ctx, p)
    && row.proposed == proposed
    && Answers(PolicyResult(row.verdict, row.authorized, row.rule, row.delaySeconds), proposed, c, p, now)
  }

  /** The handed-out command: for the authorized action of this case, with the case's own amount, currency and deadline;
      none exactly when nothing is to be done. */
  predicate CommandCarries(command: Option<Command>, id: nat, c: Case, row: DecisionRow, ai: Option<AiNote>) {
    if row.authorized == DO_NOTHING then command.None?
    else
      command == Some(Command(
        id, row.authorized, CommandKey(id, row.attemptNumber, row.authorized), c.amountAtRisk, c.currency, c.deadline,
        CommandPayload(row.rule, row.delaySeconds, ai)))
  }

  /** Everything that a committed decision writes and hands out. */
  predicate DecisionWritten(
    db: Db, t: Txn<DecisionValue>, id: nat, ctx: Context, p: Policy, model: Model, now: int, proposed: ActionType,
    audit: AuditAction, actor: Actor, ai: Option<AiNote>)
    requires id < |db.cases| && Rankings(model, db.cases[id], ctx, p) != [] && t.Commit?
  {
    var c, n := db.cases[id], |db.decisions|;
    && |t.db.cases| == |db.cases| && |t.db.decisions| == n + 1
    && CaseDecided(c, t.db.cases[id], Rankings(model, c, ctx, p)[0])
    && LeavesStatus(t.db.cases[id].status, proposed, c, p, now)
    && RowStates(t.db.decisions[n], id, c, ctx, p, model, now, proposed)
    && CommandCarries(t.value.command, id, c, t.db.decisions[n], ai)
    && t.db == db.(
         cases := db.cases[id := t.db.cases[id]], decisions := db.decisions + [t.db.decisions[n]],
         ledger := db.ledger + [Audit(c.merchant, DecisionEntity(n), audit, actor)])
  }

  lemma WalksToPolicy(c: Case, target: CaseStatus)
    ensures var c' := AdvanceToPolicyCheck(c).To(target);
      c' == c.(status := target, trail := c.trail + StepsToPolicy(c.status) + [target])
  {
    assert c.trail + [STRATEGY_GENERATED] + [POLICY_CHECK_PENDING]
        == c.trail + [STRATEGY_GENERATED, POLICY_CHECK_PENDING];
    assert c.trail + [] == c.trail;
  }

  lemma CommitsAsTheTable(proposed: ActionType, c: Case, p: Policy, now: int, target: CaseStatus)
    requires Readable(c) && LeavesStatus(target, proposed, c, p, now)
    ensures CanTransition(AdvanceToPolicyCheck(c).status, target) <==> Commits(proposed, c, p, now)
  {
  }

  lemma TerminalNeverCommits(c: Case, target: CaseStatus)
    requires c.status in {RECOVERED, UNRECOVERABLE, EXPIRED, STOPPED}
    ensures !CanTransition(AdvanceToPolicyCheck(c).status, target)
  {
  }

  /** The deterministic service: it proposes the best candidate, commits exactly when the case awaits a decision, and
      leaves the case's confidence and diagnosis alone. */
  lemma CaseDecisionExactly(db: Db, id: nat, ctx: Context, p: Policy, model: Model, now: int)
    requires id < |db.cases|
    ensures Rankings(model, db.cases[id], ctx, p) != []
    ensures var c, top := db.cases[id], Rankings(model, db.cases[id], ctx, p)[0];
      var t := EvaluateCaseDecision(db, id, ctx, p, model, now);
      && (t.Commit? <==> Commits(top.action, c, p, now))
      && (t.Commit? ==>
            && DecisionWritten(db, t, id, ctx, p, model, now, top.action, DecisionEvaluated,
                 SystemActor("deterministic-policy-engine"), None)
            && t.db.cases[id].confidence == c.confidence && t.db.cases[id].diagnosis == c.diagnosis
            && var row := t.db.decisions[|db.decisions|];
               row.confidence == 10000 && row.reasoning == OfTop(top) && row.ai.None?)
  {
    var c := db.cases[id];
    RankingsExact(model, c, ctx, p);
    var ranked := Rankings(model, c, ctx, p);
    var r := EvaluatePolicy(ranked[0].action, c, ctx, p, ranked, now);
    if Terminal(c.status) {
      TerminalNeverCommits(c, StatusFor(r));
    } else {
      PipelineAnswersExactly(AiDisabled, model, c, ctx, p, now);
      if Readable(c) { CommitsAsTheTable(ranked[0].action, c, p, now, StatusFor(r)); }
      WalksToPolicy(c, StatusFor(r));
    }
  }

  // ---- The AI's part ----

  /** A recommendation of a candidate is taken as it is; anything else is replaced by the best candidate, with full
      confidence when the AI is off and half when it failed or strayed, and marked as a fallback. */
  predicate AdviceFollowed(
    reply: AiReply, candidates: seq<ActionType>, top: ErvResult, row: DecisionRow, note: AiNote)
  {
    && row.ai.Some? && row.ai.value.deterministic == top.action && note.recommended == row.proposed
    && note.isFallback == row.ai.value.metadata.isFallback
    && if reply.AiRecommends? && reply.advice.action in candidates then
         && row.proposed == reply.advice.action && row.confidence == reply.advice.confidence
         && row.reasoning == reply.advice.rationale
         && row.ai.value == AiTrace(
              reply.advice.diagnosis, reply.advice.alternative, reply.advice.latencyMinutes, top.action, reply.metadata)
       else
         && row.proposed == top.action && row.ai.value.metadata.isFallback
         && row.confidence == (if reply.AiDisabled? then 10000 else 5000)
         && (if reply.AiDisabled? then row.reasoning == OfTop(top)
             else row.reasoning.OfFallback? && row.reasoning.top == top)
         && (reply.AiRecommends? ==> row.ai.value.diagnosis == reply.advice.diagnosis)
         && row.ai.value.alternative.None? && row.ai.value.latencyMinutes == 15
  }

  predicate AiDecisionWritten(
    db: Db, t: Txn<DecisionValue>, id: nat, ctx: Context, p: Policy, model: Model, now: int, reply: AiReply)
    requires id < |db.cases| && Rankings(model, db.cases[id], ctx, p) != [] && t.Commit?
  {
    var c, n := db.cases[id], |db.decisions|;
    && n < |t.db.decisions| && id < |t.db.cases| && t.db.decisions[n].ai.Some?
    && var row := t.db.decisions[n];
       var note := AiNote(row.proposed, row.ai.value.metadata.isFallback);
       && DecisionWritten(db, t, id, ctx, p, model, now, row.proposed, AiDecisionEvaluated,
            AiAgent(row.ai.value.metadata.model), Some(note))
       && AdviceFollowed(reply, Candidates(c, ctx, p), Rankings(model, c, ctx, p)[0], row, note)
       && t.db.cases[id].confidence == Some(row.confidence)
       && t.db.cases[id].diagnosis == Some(row.ai.value.diagnosis)
  }

  /** The AI service from the advice on, for any advice whose action is the pipeline's proposal. */
  lemma ConcludesExactly(
    db: Db, id: nat, ctx: Context, p: Policy, model: Model, now: int, reply: AiReply, advice: Recommendation,
    metadata: Metadata)
    requires id < |db.cases| && Readable(db.cases[id]) && Rankings(model, db.cases[id], ctx, p) != []
    requires advice.action == Proposed(reply, model, db.cases[id], ctx, p)
    ensures var c, n := db.cases[id], |db.decisions|;
      var ranked := Rankings(model, c, ctx, p);
      var t := ConcludeWithAi(db, id, ctx, p, now, Candidates(c, ctx, p), ranked, advice, metadata);
      && (t.Commit? <==> Commits(advice.action, c, p, now))
      && (t.Commit? ==>
            && DecisionWritten(db, t, id, ctx, p, model, now, advice.action, AiDecisionEvaluated,
                 AiAgent(metadata.model), Some(AiNote(advice.action, metadata.isFallback)))
            && t.db.cases[id].confidence == Some(advice.confidence)
            && t.db.cases[id].diagnosis == Some(advice.diagnosis)
            && var row := t.db.decisions[n];
               && row.confidence == advice.confidence && row.reasoning == advice.rationale
               && row.ai == Some(AiTrace(
                    advice.diagnosis, advice.alternative, advice.latencyMinutes, ranked[0].action, metadata)))
  {
    var c := db.cases[id];
    var ranked := Rankings(model, c, ctx, p);
    var r := EvaluatePolicy(advice.action, c, ctx, p, ranked, now);
    if Terminal(c.status) {
      TerminalNeverCommits(c, StatusFor(r));
    } else {
      PipelineAnswersExactly(reply, model, c, ctx, p, now);
      CommitsAsTheTable(advice.action, c, p, now, StatusFor(r));
      WalksToPolicy(c, StatusFor(r));
    }
  }

  /** The AI service, for every reply: it commits exactly when the case awaits a decision, and writes the same as the
      deterministic one but for whose proposal it is. */
  lemma AiDecisionExactly(db: Db, id: nat, ctx: Context, p: Policy, model: Model, now: int, reply: AiReply)
    requires id < |db.cases|
    ensures Rankings(model, db.cases[id], ctx, p) != []
    ensures var c, top := db.cases[id], Rankings(model, db.cases[id], ctx, p)[0];
      var t := EvaluateWithAi(db, id, ctx, p, model, now, reply);
      var proposed :=
        if reply.AiRecommends? && reply.advice.action in Candidates(c, ctx, p) then reply.advice.action else top.action;
      && (t.Commit? <==> Commits(proposed, c, p, now))
      && (t.Commit? ==>
            AiDecisionWritten(db, t, id, ctx, p, model, now, reply)
            && t.db.decisions[|db.decisions|].proposed == proposed)
  {
    var c := db.cases[id];
    RankingsExact(model, c, ctx, p);
    AdviseProposes(reply, model, c, ctx, p);
    var (advice, metadata) := Advise(reply, Candidates(c, ctx, p), Rankings(model, c, ctx, p)[0], c);
    if Readable(c) { ConcludesExactly(db, id, ctx, p, model, now, reply, advice, metadata); }
  }

  /** Past the deadline, or at the merchant's attempt limit, every committed decision of either service leaves the case
      REJECTED and hands out nothing, whatever the AI replies. */
  lemma SpentCasesAreRejected(db: Db, id: nat, ctx: Context, p: Policy, model: Model, now: int, reply: AiReply)
    requires id < |db.cases|
    requires now >= db.cases[id].deadline || db.cases[id].attemptCount >= p.maxAttempts
    ensures var d := EvaluateCaseDecision(db, id, ctx, p, model, now);
      d.Commit? ==> id < |d.db.cases| && d.db.cases[id].status == REJECTED && d.value.command.None?
    ensures var a := EvaluateWithAi(db, id, ctx, p, model, now, reply);
      a.Commit? ==> id < |a.db.cases| && a.db.cases[id].status == REJECTED && a.value.command.None?
  {
    CaseDecisionExactly(db, id, ctx, p, model, now);
    AiDecisionExactly(db, id, ctx, p, model, now, reply);
  }
}
