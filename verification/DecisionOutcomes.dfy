/** What a committed decision leaves behind, whatever the AI replied. */
module DecisionOutcomes {
  import opened Domain
  import opened Tables
  import opened Decision
  import opened Services
  import opened Effects

  // ---- The two services compared ----

  /** A command with the AI service's note on it. */
  function Noted(command: Option<Command>, note: AiNote): Option<Command> {
    match command
    case None => None
    case Some(cmd) => Some(cmd.(payload := cmd.payload.(ai := Some(note))))
  }

  /** What the AI service writes where the deterministic one, from the same database, writes `d`: confidence and
      diagnosis on the case; confidence, rationale and trace on the decision row; action and actor in the ledger. */
  function AsWrittenByAi(d: Db, db: Db, id: nat, advice: Recommendation, metadata: Metadata, top: ActionType): Db
    requires id < |d.cases| && |d.decisions| == |db.decisions| + 1 && |d.ledger| == |db.ledger| + 1
  {
    var row, entry := d.decisions[|db.decisions|], d.ledger[|db.ledger|];
    d.(cases := d.cases[id := d.cases[id].(confidence := Some(advice.confidence), diagnosis := Some(advice.diagnosis))],
       decisions := d.decisions[|db.decisions| := row.(
         confidence := advice.confidence, reasoning := advice.rationale,
         ai := Some(AiTrace(advice.diagnosis, advice.alternative, advice.latencyMinutes, top, metadata)))],
       ledger := d.ledger[|db.ledger| := entry.(action := AiDecisionEvaluated, actor := AiAgent(metadata.model))])
  }

  /** The two services agree from `db`: same commit or abort, and on commit the same answer but for the note on the
      command, and the same database but for the fields above. */
  predicate Agree(
    db: Db, id: nat, d: Txn<DecisionValue>, a: Txn<DecisionValue>, advice: Recommendation, metadata: Metadata,
    top: ActionType)
  {
    && (d.Commit? <==> a.Commit?)
    && (d.Commit? ==>
          && id < |d.db.cases| && |d.db.decisions| == |db.decisions| + 1 && |d.db.ledger| == |db.ledger| + 1
          && a.value == d.value.(command := Noted(d.value.command, AiNote(top, metadata.isFallback)))
          && a.db == AsWrittenByAi(d.db, db, id, advice, metadata, top))
  }

  /** From the ranking on, given advice for the top action, the two bodies agree. */
  lemma BodiesAgree(
    db: Db, id: nat, ctx: Context, p: Policy, now: int, candidates: seq<ActionType>, ranked: seq<ErvResult>,
    advice: Recommendation, metadata: Metadata)
    requires id < |db.cases| && ranked != [] && advice.action == ranked[0].action
    ensures Agree(
      db, id, ConcludeCaseDecision(db, id, ctx, p, now, candidates, ranked),
      ConcludeWithAi(db, id, ctx, p, now, candidates, ranked, advice, metadata), advice, metadata, ranked[0].action)
  {
    var d := ConcludeCaseDecision(db, id, ctx, p, now, candidates, ranked);
    var a := ConcludeWithAi(db, id, ctx, p, now, candidates, ranked, advice, metadata);
    if d.Commit? {
      assert a.db.cases == AsWrittenByAi(d.db, db, id, advice, metadata, ranked[0].action).cases;
      assert a.db.decisions == AsWrittenByAi(d.db, db, id, advice, metadata, ranked[0].action).decisions;
      assert a.db.ledger == AsWrittenByAi(d.db, db, id, advice, metadata, ranked[0].action).ledger;
    }
  }

  /** Whenever the AI's proposal is the top-ranked action, by agreement or by fallback, the AI service is the
      deterministic service up to the fields listed. */
  lemma SameProposalSameDecision(
    db: Db, id: nat, ctx: Context, p: Policy, model: Model, now: int, reply: AiReply)
    requires id < |db.cases| && Rankings(model, db.cases[id], ctx, p) != []
    requires Proposed(reply, model, db.cases[id], ctx, p) == Rankings(model, db.cases[id], ctx, p)[0].action
    ensures var top := Rankings(model, db.cases[id], ctx, p)[0];
      var (advice, metadata) := Advise(reply, Candidates(db.cases[id], ctx, p), top, db.cases[id]);
      Agree(
        db, id, EvaluateCaseDecision(db, id, ctx, p, model, now),
        EvaluateWithAi(db, id, ctx, p, model, now, reply), advice, metadata, top.action)
  {
    var c := db.cases[id];
    var ranked := Rankings(model, c, ctx, p);
    AdviseProposes(reply, model, c, ctx, p);
    var (advice, metadata) := Advise(reply, Candidates(c, ctx, p), ranked[0], c);
    BodiesAgree(db, id, ctx, p, now, Candidates(c, ctx, p), ranked, advice, metadata);
  }

  /** When AI is off, fails, or answers outside the candidates, the two services agree, and what the AI service adds
      says so: the top action, a fallback mark, full confidence when it is off and half when it was not followed. */
  lemma FallbackIsDeterministic(
    db: Db, id: nat, ctx: Context, p: Policy, model: Model, now: int, reply: AiReply)
    requires id < |db.cases|
    requires reply.AiRecommends? ==> reply.advice.action !in Candidates(db.cases[id], ctx, p)
    ensures Rankings(model, db.cases[id], ctx, p) != []
    ensures var top := Rankings(model, db.cases[id], ctx, p)[0];
      var (advice, metadata) := Advise(reply, Candidates(db.cases[id], ctx, p), top, db.cases[id]);
      && advice.action == top.action && metadata.isFallback
      && advice.confidence == (if reply.AiDisabled? then CERTAIN else CERTAIN / 2)
      && Agree(
           db, id, EvaluateCaseDecision(db, id, ctx, p, model, now),
           EvaluateWithAi(db, id, ctx, p, model, now, reply), advice, metadata, top.action)
  {
    RankingsExact(model, db.cases[id], ctx, p);
    SameProposalSameDecision(db, id, ctx, p, model, now, reply);
  }

  lemma KeysFollowActions(id: nat, number: nat)
    ensures forall x, y :: CommandKey(id, number, x) == CommandKey(id, number, y) ==> x == y
  {
    forall x, y | CommandKey(id, number, x) == CommandKey(id, number, y) ensures x == y {
      CommandKeyInjective(id, number, x, id, number, y);
    }
  }

  lemma BothServedAlike(
    db: Db, id: nat, ctx: Context, p: Policy, model: Model, now: int, d: Txn<DecisionValue>, a: Txn<DecisionValue>,
    first: ActionType, second: ActionType, actor: Actor)
    requires id < |db.cases| && Rankings(model, db.cases[id], ctx, p) != [] && d.Commit? && a.Commit?
    requires Served(db, d, id, ctx, p, model, now, first, DecisionEvaluated, POLICY_ENGINE)
    requires Served(db, a, id, ctx, p, model, now, second, AiDecisionEvaluated, actor)
    ensures SameEstimates(id, db.cases[id], d, a)
  {
    ServedStores(db, d, id, ctx, p, model, now, first, DecisionEvaluated, POLICY_ENGINE);
    ServedStores(db, a, id, ctx, p, model, now, second, AiDecisionEvaluated, actor);
    KeysFollowActions(id, db.cases[id].attemptCount + 1);
  }

  /** Whatever the AI says, candidates, rankings and the estimate stored are the deterministic ones, and the two
      services' commands share a key exactly when they authorize the same action. */
  lemma AiCannotTouchEstimates(
    db: Db, id: nat, ctx: Context, p: Policy, model: Model, now: int, reply: AiReply)
    requires id < |db.cases|
    ensures var d := EvaluateCaseDecision(db, id, ctx, p, model, now);
      var a := EvaluateWithAi(db, id, ctx, p, model, now, reply);
      d.Commit? && a.Commit? ==> SameEstimates(id, db.cases[id], d, a)
  {
    var c := db.cases[id];
    CaseDecisionConcludes(db, id, ctx, p, model, now);
    AiDecisionConcludes(db, id, ctx, p, model, now, reply);
    var d := EvaluateCaseDecision(db, id, ctx, p, model, now);
    var a := EvaluateWithAi(db, id, ctx, p, model, now, reply);
    if d.Commit? && a.Commit? {
      var top := Rankings(model, c, ctx, p)[0];
      BothServedAlike(
        db, id, ctx, p, model, now, d, a, top.action, Proposed(reply, model, c, ctx, p),
        AiAgent(Advise(reply, Candidates(c, ctx, p), top, c).1.model));
    }
  }

  predicate SameEstimates(id: nat, c: Case, d: Txn<DecisionValue>, a: Txn<DecisionValue>)
    requires d.Commit? && a.Commit?
  {
    && id < |d.db.cases| && id < |a.db.cases|
    && a.value.rankings == d.value.rankings && a.value.candidates == d.value.candidates
    && a.db.cases[id].probability == d.db.cases[id].probability
    && a.db.cases[id].expectedValue == d.db.cases[id].expectedValue
    && (a.value.command.Some? && d.value.command.Some? ==>
         (a.value.command.value.key == d.value.command.value.key
          <==> a.value.policy.authorized == d.value.policy.authorized))
  }

  lemma VerdictsFixActions(
    proposed: ActionType, c: Case, ctx: Context, p: Policy, rankings: seq<ErvResult>, now: int)
    ensures var r := EvaluatePolicy(proposed, c, ctx, p, rankings, now);
      && (r.verdict == VerdictRejected ==> r.authorized == DO_NOTHING)
      && (r.verdict == VerdictEscalated ==> r.authorized == HUMAN_ESCALATION)
  {
  }

  /** A committed decision hands out a command exactly when it leaves the case ESCALATED, or APPROVED for an action
      other than DO_NOTHING, and leaves it REJECTED exactly when nothing is to be done without that being approved; the
      command is for the authorized action of that case, at the next attempt number. */
  lemma CommandsFollowStatus(db: Db, id: nat, ctx: Context, p: Policy, model: Model, now: int, reply: AiReply)
    requires id < |db.cases|
    ensures var r := EvaluateWithAi(db, id, ctx, p, model, now, reply);
      r.Commit? ==>
        && |r.db.cases| == |db.cases|
        && (r.value.command.Some? <==>
             r.db.cases[id].status == ESCALATED
             || (r.db.cases[id].status == APPROVED && r.value.policy.authorized != DO_NOTHING))
        && (r.db.cases[id].status == REJECTED <==>
             r.value.policy.authorized == DO_NOTHING && r.value.policy.verdict != VerdictApproved)
        && (r.value.command.Some? ==>
             r.value.command.value.caseId == id
             && r.value.command.value.key == CommandKey(id, db.cases[id].attemptCount + 1, r.value.policy.authorized))
  {
    var c := db.cases[id];
    AiDecisionConcludes(db, id, ctx, p, model, now, reply);
    VerdictsFixActions(Proposed(reply, model, c, ctx, p), c, ctx, p, Rankings(model, c, ctx, p), now);
  }

  /** For every AI reply, a committed decision hands out a command to contact the customer exactly when that contact
      was put to the policy engine and every gate passes: live case, deadline, both attempt limits, cooldown, fraud,
      value threshold, merchant's list, and for a reminder a link to remind of. */
  lemma ContactCommandsPassEveryGate(
    db: Db, id: nat, ctx: Context, p: Policy, model: Model, now: int, reply: AiReply, a: ActionType)
    requires id < |db.cases| && a in {PAYMENT_LINK, CUSTOMER_REMINDER}
    ensures Rankings(model, db.cases[id], ctx, p) != []
    ensures var r := EvaluateWithAi(db, id, ctx, p, model, now, reply);
      r.Commit? ==>
        (r.value.command.Some? && r.value.command.value.action == a <==>
          Proposed(reply, model, db.cases[id], ctx, p) == a && ContactGates(a, db.cases[id], ctx, p, now))
  {
    var c := db.cases[id];
    AiDecisionConcludes(db, id, ctx, p, model, now, reply);
    VerdictsFixActions(Proposed(reply, model, c, ctx, p), c, ctx, p, Rankings(model, c, ctx, p), now);
    PipelineContactsExactlyThroughGates(reply, model, c, ctx, p, now, a);
  }

  // ---- The stored estimate ----

  lemma TopIsScored(model: Model, c: Case, ctx: Context, p: Policy)
    ensures Rankings(model, c, ctx, p) != [] && 0 <= Rankings(model, c, ctx, p)[0].probability <= CERTAIN
  {
    RankingsExact(model, c, ctx, p);
    var top := Rankings(model, c, ctx, p)[0];
    assert top in Rankings(model, c, ctx, p);
    ScoreInRange(model, c, ctx, top.action);
  }

  /** The estimate a decision leaves can be read back by the next one exactly when the top candidate does not lose
      money. */
  lemma EstimateReadableExactly(db: Db, id: nat, ctx: Context, p: Policy, model: Model, now: int, reply: AiReply)
    requires id < |db.cases|
    ensures Rankings(model, db.cases[id], ctx, p) != []
    ensures var r := EvaluateWithAi(db, id, ctx, p, model, now, reply);
      r.Commit? ==>
        && |r.db.cases| == |db.cases|
        && (SnapshotOk(r.db.cases[id]) <==> Rankings(model, db.cases[id], ctx, p)[0].net >= 0)
  {
    var c := db.cases[id];
    TopIsScored(model, c, ctx, p);
    AiDecisionConcludes(db, id, ctx, p, model, now, reply);
    var r := EvaluateWithAi(db, id, ctx, p, model, now, reply);
    if r.Commit? {
      ServedStores(
        db, r, id, ctx, p, model, now, Proposed(reply, model, c, ctx, p), AiDecisionEvaluated,
        AiAgent(Advise(reply, Candidates(c, ctx, p), Rankings(model, c, ctx, p)[0], c).1.model));
    }
  }

  /** DO_NOTHING or waiting is on offer, or nothing is and DO_NOTHING stands in: the merchant's own list and the
      case's category decide it. */
  predicate FreeActionOnOffer(c: Case, ctx: Context, p: Policy) {
    DO_NOTHING in Candidates(c, ctx, p) || WAIT_AND_REASSESS in Candidates(c, ctx, p)
  }

  ghost predicate NeverLosesMoney(c: Case, ctx: Context, p: Policy) {
    forall model: Model :: Rankings(model, c, ctx, p) != [] && Rankings(model, c, ctx, p)[0].net >= 0
  }

  const HOPELESS: Model := map[
    PAYMENT_LINK := 0, CUSTOMER_REMINDER := 0, WAIT_AND_REASSESS := 0, HUMAN_ESCALATION := 0, DO_NOTHING := 0]

  /** No scoring model can make the stored estimate unreadable exactly when a free action is on offer. */
  lemma EstimateSafeForEveryModelExactly(c: Case, ctx: Context, p: Policy)
    requires c.amountAtRisk >= 0
    ensures NeverLosesMoney(c, ctx, p) <==> FreeActionOnOffer(c, ctx, p)
  {
    if FreeActionOnOffer(c, ctx, p) {
      forall model: Model ensures Rankings(model, c, ctx, p) != [] && Rankings(model, c, ctx, p)[0].net >= 0 {
        FreeCandidateSuffices(model, c, ctx, p);
      }
    } else {
      RankingsExact(HOPELESS, c, ctx, p);
      var top := Rankings(HOPELESS, c, ctx, p)[0];
      assert top in Rankings(HOPELESS, c, ctx, p);
      assert Score(HOPELESS, c, ctx, top.action) == 0;
      assert top.net < 0;
    }
  }

  /** A merchant who leaves DO_NOTHING allowed never meets an unreadable estimate. */
  lemma AllowingDoNothingKeepsEstimateReadable(
    db: Db, id: nat, ctx: Context, p: Policy, model: Model, now: int, reply: AiReply)
    requires id < |db.cases| && DO_NOTHING !in p.disallowed
    ensures var r := EvaluateWithAi(db, id, ctx, p, model, now, reply);
      r.Commit? ==> |r.db.cases| == |db.cases| && SnapshotOk(r.db.cases[id])
  {
    var c := db.cases[id];
    var r := EvaluateWithAi(db, id, ctx, p, model, now, reply);
    if r.Commit? {
      CandidatesExact(c, ctx, p);
      assert Offered(DO_NOTHING, c, ctx, p);
      AiDecisionConcludes(db, id, ctx, p, model, now, reply);
      EstimateSafeForEveryModelExactly(c, ctx, p);
      EstimateReadableExactly(db, id, ctx, p, model, now, reply);
    }
  }

  /** Only payment links are allowed, and the case is worth less than a link costs. */
  predicate WorthLessThanItsLink(c: Case, p: Policy, now: int) {
    && p.disallowed == {CUSTOMER_REMINDER, WAIT_AND_REASSESS, HUMAN_ESCALATION, DO_NOTHING}
    && 0 < c.amountAtRisk < 250 && c.amountAtRisk < p.highValueThreshold
    && c.status == DIAGNOSING && !IsFraud(c) && !InCooldown(c, p, now)
    && now < c.deadline && c.attemptCount < c.maxAttempts && c.attemptCount < p.maxAttempts
  }

  /** With everything else disallowed and a link eligible, the link is the one candidate. */
  lemma OnlyLinkIsOffered(c: Case, ctx: Context, p: Policy, model: Model)
    requires p.disallowed == {CUSTOMER_REMINDER, WAIT_AND_REASSESS, HUMAN_ESCALATION, DO_NOTHING}
    requires EvaluateStrategy(PAYMENT_LINK, c, ctx, p).isEligible
    ensures forall a :: a in Candidates(c, ctx, p) <==> a == PAYMENT_LINK
    ensures Rankings(model, c, ctx, p) != []
    ensures var top := Rankings(model, c, ctx, p)[0];
      top == CalculateErv(PAYMENT_LINK, c, ctx, p, Score(model, c, ctx, PAYMENT_LINK))
  {
    CandidatesExact(c, ctx, p);
    assert Offered(PAYMENT_LINK, c, ctx, p);
    RankingsExact(model, c, ctx, p);
    var top := Rankings(model, c, ctx, p)[0];
    assert top in Rankings(model, c, ctx, p);
  }

  lemma LinkLosesMoney(c: Case, ctx: Context, p: Policy, model: Model, now: int)
    requires WorthLessThanItsLink(c, p, now)
    ensures forall a :: a in Candidates(c, ctx, p) <==> a == PAYMENT_LINK
    ensures Rankings(model, c, ctx, p) != []
    ensures Rankings(model, c, ctx, p)[0].action == PAYMENT_LINK && Rankings(model, c, ctx, p)[0].net < 0
  {
    OnlyLinkIsOffered(c, ctx, p, model);
    ScoreInRange(model, c, ctx, PAYMENT_LINK);
    GrossAtMost(Score(model, c, ctx, PAYMENT_LINK), c.amountAtRisk);
  }

  lemma GrossAtMost(probability: int, amount: int)
    requires 0 <= probability <= CERTAIN && 0 <= amount
    ensures probability * amount / CERTAIN <= amount
  {
    ProductBounds(probability, amount, 0, CERTAIN, amount, amount);
  }

  /** Such a case, in any store, for every scoring model and every AI reply: the decision commits, and leaves an
      estimate that no later decision can read. */
  lemma OnlyLinksAllowedIsUnreadable(
    db: Db, id: nat, ctx: Context, p: Policy, model: Model, now: int, reply: AiReply)
    requires id < |db.cases| && SnapshotOk(db.cases[id]) && WorthLessThanItsLink(db.cases[id], p, now)
    ensures var r := EvaluateWithAi(db, id, ctx, p, model, now, reply);
      r.Commit? && |r.db.cases| == |db.cases| && r.db.cases[id].status == APPROVED && !SnapshotOk(r.db.cases[id])
  {
    LinkLosesMoney(db.cases[id], ctx, p, model, now);
    AiDecisionConcludes(db, id, ctx, p, model, now, reply);
    EstimateReadableExactly(db, id, ctx, p, model, now, reply);
  }
}
