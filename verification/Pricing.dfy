/**
 What is on offer and what it is worth, stated apart from the code that computes it: offers by their conditions, prices
 in minor units, and the heuristic probability as a formula over the reals.
 */
module Pricing {
  import opened Domain
  import opened Tables
  import opened Decision

  // ---- Offers ----

  predicate AttemptsLeft(c: Case) {
    c.attemptCount < c.maxAttempts
  }

  /** Why an action is worth considering for a case, apart from what the merchant allows. */
  predicate WorthOffering(a: ActionType, c: Case, ctx: Context, p: Policy) {
    match a
    case PAYMENT_LINK => AttemptsLeft(c) && c.category != Some(FRAUD_RISK_BLOCK) && c.amountAtRisk > 0
    case CUSTOMER_REMINDER => AttemptsLeft(c) && (ctx.hasActiveLink || c.linkInMetadata)
    case WAIT_AND_REASSESS =>
      && c.category !in {Some(FRAUD_RISK_BLOCK), Some(PERMANENT_INSTRUMENT_DECLINE)}
      && (AttemptsLeft(c) || c.isTransient
          || c.category in {Some(BANK_SYSTEM_OUTAGE), Some(TECHNICAL_GATEWAY_TIMEOUT)})
    case HUMAN_ESCALATION =>
      || c.amountAtRisk >= p.highValueThreshold || c.amountAtRisk >= 20000 * 100
      || (ctx.isLowRiskVip && c.amountAtRisk >= 10000 * 100)
      || (c.attemptCount >= 1 && ctx.failureCount >= 3)
    case DO_NOTHING => true
  }

  /** What is on offer, action by action: what is worth offering and allowed; and nothing but doing nothing, allowed or
      not, when that leaves nothing. */
  lemma OffersExactly(c: Case, ctx: Context, p: Policy, a: ActionType)
    ensures a in Candidates(c, ctx, p) <==>
      || (WorthOffering(a, c, ctx, p) && a !in p.disallowed)
      || (a == DO_NOTHING && forall b :: !(WorthOffering(b, c, ctx, p) && b !in p.disallowed))
  {
    CandidatesExact(c, ctx, p);
    forall b ensures Offered(b, c, ctx, p) <==> WorthOffering(b, c, ctx, p) && b !in p.disallowed {
    }
  }

  // ---- Prices ----

  predicate Costs(a: ActionType, cost: int) {
    && (a == PAYMENT_LINK ==> cost == 2 * 100) && (a == CUSTOMER_REMINDER ==> cost == 150)
    && (a == HUMAN_ESCALATION ==> cost == 100 * 100) && (a in {WAIT_AND_REASSESS, DO_NOTHING} ==> cost == 0)
  }

  /** The risk of bothering the customer, higher for one who has only ever failed. */
  predicate Risks(a: ActionType, ctx: Context, penalty: int) {
    && (a == PAYMENT_LINK ==> penalty == if ctx.failureCount >= 5 && ctx.successCount == 0 then 500 else 50)
    && (a == CUSTOMER_REMINDER ==> penalty == 100)
    && (a !in {PAYMENT_LINK, CUSTOMER_REMINDER} ==> penalty == 0)
  }

  /** The part of the amount at risk that the probability stands for, rounded down to the minor unit. */
  predicate GrossIs(gross: int, probability: int, amount: int) {
    gross * 10000 <= probability * amount < (gross + 1) * 10000
  }

  /** Every entry of the ranked table: an offered action with its probability, the rounded share of the amount, the
      action's cost and risk, and what they leave. */
  lemma PricesExactly(model: Model, c: Case, ctx: Context, p: Policy, x: ErvResult)
    requires x in Rankings(model, c, ctx, p)
    ensures x.action in Candidates(c, ctx, p) && x.probability == Score(model, c, ctx, x.action)
    ensures GrossIs(x.gross, x.probability, c.amountAtRisk) && x.net == x.gross - x.cost - x.penalty
    ensures Costs(x.action, x.cost) && Risks(x.action, ctx, x.penalty)
  {
    RankingsExact(model, c, ctx, p);
    OffersExactly(c, ctx, p, x.action);
  }

  // ---- Order ----

  /** The fixed order of actions that are otherwise equal. */
  const LAST_RESORT_LAST: seq<ActionType> :=
    [PAYMENT_LINK, CUSTOMER_REMINDER, WAIT_AND_REASSESS, HUMAN_ESCALATION, DO_NOTHING]

  predicate ListedBefore(a: ActionType, b: ActionType) {
    exists i, j | 0 <= i < j < |LAST_RESORT_LAST| :: LAST_RESORT_LAST[i] == a && LAST_RESORT_LAST[j] == b
  }

  /** More is left; or as much and more likely; or as likely and cheaper; or as cheap and listed first. */
  predicate Better(x: ErvResult, y: ErvResult) {
    || x.net > y.net
    || (x.net == y.net && x.probability > y.probability)
    || (x.net == y.net && x.probability == y.probability && x.cost < y.cost)
    || (x.net == y.net && x.probability == y.probability && x.cost == y.cost && ListedBefore(x.action, y.action))
  }

  lemma ListedInTieOrder(a: ActionType, b: ActionType)
    ensures ListedBefore(a, b) <==> TieOrder(a) < TieOrder(b)
  {
    assert LAST_RESORT_LAST[TieOrder(a) - 1] == a && LAST_RESORT_LAST[TieOrder(b) - 1] == b;
    if ListedBefore(a, b) {
      var i, j :| 0 <= i < j < |LAST_RESORT_LAST| && LAST_RESORT_LAST[i] == a && LAST_RESORT_LAST[j] == b;
      assert i == TieOrder(LAST_RESORT_LAST[i]) - 1 && j == TieOrder(LAST_RESORT_LAST[j]) - 1;
    }
  }

  /** The ranked table has one entry for each action on offer, each strictly better than the next. */
  lemma RankedByPromise(model: Model, c: Case, ctx: Context, p: Policy, i: nat, j: nat)
    requires i < j < |Rankings(model, c, ctx, p)|
    ensures Better(Rankings(model, c, ctx, p)[i], Rankings(model, c, ctx, p)[j])
    ensures |Rankings(model, c, ctx, p)| == |Candidates(c, ctx, p)|
  {
    var table, ranked := ErvTable(Candidates(c, ctx, p), model, c, ctx, p), Rankings(model, c, ctx, p);
    CandidatesExact(c, ctx, p);
    RankSortsPermutation(table);
    SameResults(table, ranked);
    ListedInTieOrder(ranked[i].action, ranked[j].action);
    DifferentActions(table, ranked, i, j);
    assert AtLeastAsGood(ranked[i], ranked[j]);
    TiesAreOneAction(ranked[i].action, ranked[j].action);
  }

  lemma TiesAreOneAction(a: ActionType, b: ActionType)
    ensures TieOrder(a) == TieOrder(b) ==> a == b
  {
  }

  /** Sorting keeps the actions apart. */
  lemma DifferentActions(table: seq<ErvResult>, ranked: seq<ErvResult>, i: nat, j: nat)
    requires forall k, l | 0 <= k < l < |table| :: table[k].action != table[l].action
    requires multiset(table) == multiset(ranked) && i < j < |ranked|
    ensures ranked[i].action != ranked[j].action
  {
    if ranked[i].action == ranked[j].action {
      var x, y := ranked[i], ranked[j];
      assert x in multiset(ranked) && y in multiset(ranked);
      assert x in table && y in table;
      assert x == y;
      TwiceThere(ranked, i, j);
      OnceThere(table, x);
    }
  }

  lemma TwiceThere(s: seq<ErvResult>, i: nat, j: nat)
    requires i < j < |s| && s[i] == s[j]
    ensures multiset(s)[s[i]] >= 2
  {
    assert s == s[..i] + [s[i]] + s[i + 1..j] + [s[j]] + s[j + 1..];
  }

  lemma {:induction false} OnceThere(s: seq<ErvResult>, x: ErvResult)
    requires forall k, l | 0 <= k < l < |s| :: s[k].action != s[l].action
    ensures multiset(s)[x] <= 1
  {
    if s != [] {
      var n := |s| - 1;
      assert s == s[..n] + [s[n]];
      OnceThere(s[..n], x);
      if s[n] == x { assert x !in s[..n]; }
    }
  }

  // ---- Probabilities ----

  /** How likely an intervention recovers a failure of this kind. */
  function Base(category: Option<Category>, a: ActionType): real {
    match category
    case Some(USER_AUTHENTICATION_DROPOFF) =>
      if a == HUMAN_ESCALATION then 0.70 else if a == PAYMENT_LINK || a == CUSTOMER_REMINDER then 0.65 else 0.30
    case Some(INSUFFICIENT_FUNDS) =>
      if a == WAIT_AND_REASSESS then 0.40 else if a == PAYMENT_LINK || a == CUSTOMER_REMINDER then 0.50 else 0.25
    case Some(BANK_SYSTEM_OUTAGE) => if a == PAYMENT_LINK then 0.45 else if a == WAIT_AND_REASSESS then 0.75 else 0.20
    case Some(TECHNICAL_GATEWAY_TIMEOUT) =>
      if a == PAYMENT_LINK then 0.60 else if a == WAIT_AND_REASSESS then 0.70 else 0.30
    case Some(PERMANENT_INSTRUMENT_DECLINE) =>
      if a == HUMAN_ESCALATION then 0.35 else if a == PAYMENT_LINK then 0.20 else 0.05
    case _ => 0.35
  }

  /** What the customer's history adds or takes away. */
  function History(ctx: Context): real {
    1.0
    + (if ctx.successCount >= 3 then 0.15 else if ctx.failureCount >= 3 && ctx.successCount == 0 then -0.20 else 0.0)
    + (if ctx.previousRecoveries > 0 then 0.10 else 0.0)
  }

  /** A quarter less for every attempt made, down to a fifth. */
  function Decay(attemptCount: nat): real {
    var left := 1.0 - attemptCount as real * 0.25;
    if left < 0.2 then 0.2 else left
  }

  /** The probability before rounding. */
  function Likelihood(c: Case, ctx: Context, a: ActionType): real {
    if a == DO_NOTHING then if c.isTransient then 0.05 else 0.01
    else if c.category == Some(FRAUD_RISK_BLOCK) then 0.0
    else Product(Base(c.category, a), History(ctx), Decay(c.attemptCount))
  }

  function Product(base: real, history: real, decay: real): real {
    base * (history * decay)
  }

  lemma PercentsAreReals(c: Case, ctx: Context, a: ActionType)
    ensures BasePercent(c.category, a) as real == Base(c.category, a) * 100.0 || c.category == Some(FRAUD_RISK_BLOCK)
    ensures HistoryPercent(ctx) as real == History(ctx) * 100.0
    ensures DecayPercent(c.attemptCount) as real == Decay(c.attemptCount) * 100.0
  {
  }

  lemma ProductOfPercents(b: nat, h: nat, d: nat, base: real, history: real, decay: real)
    requires b as real == base * 100.0 && h as real == history * 100.0 && d as real == decay * 100.0
    ensures (b * (h * d)) as real == Product(base, history, decay) * 1000000.0
  {
    assert (h * d) as real == h as real * d as real;
    assert (b * (h * d)) as real == b as real * (h * d) as real;
    assert h as real * d as real == (history * decay) * 10000.0;
    ScaledProduct(base, history * decay);
  }

  lemma ScaledProduct(x: real, y: real)
    ensures (x * 100.0) * (y * 10000.0) == x * y * 1000000.0
  {
  }

  /** Rounding to the nearest ten-thousandth. */
  lemma RoundsToNearest(millionths: nat)
    ensures -50 <= RoundHalfEven(millionths) * 100 - millionths <= 50
    ensures (RoundHalfEven(millionths) * 100 - millionths) in {-50, 50} ==> RoundHalfEven(millionths) % 2 == 0
  {
  }

  /** `score` is `exact` rounded to the nearest ten-thousandth, to an even one when two are nearest. */
  predicate Nearest(score: int, exact: real) {
    var error := score as real - exact * 10000.0;
    && -0.5 <= error <= 0.5 && (error == -0.5 || error == 0.5 ==> score % 2 == 0)
  }

  lemma MillionthsToNearest(raw: nat, exact: real)
    requires raw as real == exact * 1000000.0
    ensures Nearest(RoundHalfEven(raw), exact)
  {
    RoundsToNearest(raw);
    var score := RoundHalfEven(raw);
    var error := score as real - exact * 10000.0;
    assert error * 100.0 == (score * 100 - raw) as real;
  }

  lemma RawIsProduct(c: Case, ctx: Context, a: ActionType, b: nat, h: nat, d: nat)
    requires b == BasePercent(c.category, a) && h == HistoryPercent(ctx) && d == DecayPercent(c.attemptCount)
    ensures RawScore(c, ctx, a) == b * (h * d)
  {
  }

  lemma LikelihoodIsProduct(c: Case, ctx: Context, a: ActionType, base: real, history: real, decay: real)
    requires a != DO_NOTHING && c.category != Some(FRAUD_RISK_BLOCK)
    requires base == Base(c.category, a) && history == History(ctx) && decay == Decay(c.attemptCount)
    ensures Likelihood(c, ctx, a) == Product(base, history, decay)
  {
  }

  lemma RawFromPercents(
    c: Case, ctx: Context, a: ActionType, b: nat, h: nat, d: nat, base: real, history: real, decay: real)
    requires RawScore(c, ctx, a) == b * (h * d) && Likelihood(c, ctx, a) == Product(base, history, decay)
    requires b as real == base * 100.0 && h as real == history * 100.0 && d as real == decay * 100.0
    ensures RawScore(c, ctx, a) as real == Likelihood(c, ctx, a) * 1000000.0
  {
    ProductOfPercents(b, h, d, base, history, decay);
  }

  lemma RawIsTheFormula(c: Case, ctx: Context, a: ActionType)
    requires a != DO_NOTHING && c.category != Some(FRAUD_RISK_BLOCK)
    ensures RawScore(c, ctx, a) as real == Likelihood(c, ctx, a) * 1000000.0
  {
    var b, h, d := BasePercent(c.category, a), HistoryPercent(ctx), DecayPercent(c.attemptCount);
    var base, history, decay := Base(c.category, a), History(ctx), Decay(c.attemptCount);
    PercentsAreReals(c, ctx, a);
    RawIsProduct(c, ctx, a, b, h, d);
    LikelihoodIsProduct(c, ctx, a, base, history, decay);
    RawFromPercents(c, ctx, a, b, h, d, base, history, decay);
  }

  lemma UnclampedScore(c: Case, ctx: Context, a: ActionType)
    requires a != DO_NOTHING && c.category != Some(FRAUD_RISK_BLOCK)
    ensures HeuristicScore(c, ctx, a) == RoundHalfEven(RawScore(c, ctx, a)) && RawScore(c, ctx, a) <= 1000000
  {
    HeuristicRange(c, ctx, a);
  }

  lemma InUnitInterval(raw: nat, exact: real)
    requires raw as real == exact * 1000000.0 && raw <= 1000000
    ensures 0.0 <= exact <= 1.0
  {
  }

  /** The heuristic score, in ten-thousandths, is the formula over the reals rounded to the nearest ten-thousandth, to
      an even one when two are nearest; and the formula never leaves [0, 1]. */
  lemma HeuristicIsTheFormula(c: Case, ctx: Context, a: ActionType)
    ensures 0.0 <= Likelihood(c, ctx, a) <= 1.0 && Nearest(HeuristicScore(c, ctx, a), Likelihood(c, ctx, a))
  {
    if a != DO_NOTHING && c.category != Some(FRAUD_RISK_BLOCK) {
      var raw, exact := RawScore(c, ctx, a), Likelihood(c, ctx, a);
      RawIsTheFormula(c, ctx, a);
      UnclampedScore(c, ctx, a);
      InUnitInterval(raw, exact);
      MillionthsToNearest(raw, exact);
    }
  }

  /** The score of an action: none for a fraud block; the model's prediction, brought into [0, 1], where there is one;
      and the heuristic otherwise. */
  lemma ScoresExactly(model: Model, c: Case, ctx: Context, a: ActionType)
    ensures var score := Score(model, c, ctx, a);
      if c.category == Some(FRAUD_RISK_BLOCK) then score == 0
      else if a !in model then score == HeuristicScore(c, ctx, a)
      else
        && 0 <= score <= 10000 && (0 <= model[a] <= 10000 ==> score == model[a])
        && (model[a] < 0 ==> score == 0) && (model[a] > 10000 ==> score == 10000)
  {
  }
}
