/**
 From a case to an authorized action: strategies, candidates, probability, expected value, ranking, policy
 (backend/packages/domain).
 */
module Decision {
  import opened Domain
  import opened Tables

  datatype Context = Context(
    hasActiveLink: bool, successCount: nat, failureCount: nat, previousRecoveries: nat, isLowRiskVip: bool)

  datatype Policy = Policy(
    maxAttempts: int, cooldownMinutes: int, highValueThreshold: int, disallowed: set<ActionType>)

  // ---- Strategies (domain/strategies) ----

  datatype Evaluation = Evaluation(isEligible: bool, cost: int, penalty: int)

  predicate HasActiveLink(c: Case, ctx: Context) {
    ctx.hasActiveLink || c.linkInMetadata
  }

  predicate IsFraud(c: Case) {
    c.category == Some(FRAUD_RISK_BLOCK)
  }

  function EvaluateStrategy(a: ActionType, c: Case, ctx: Context, p: Policy): Evaluation {
    match a
    case PAYMENT_LINK =>
      if c.attemptCount >= c.maxAttempts then Evaluation(false, 200, 0)
      else if IsFraud(c) then Evaluation(false, 200, 10000)
      else if c.amountAtRisk <= 0 then Evaluation(false, 200, 0)
      else Evaluation(true, 200, if ctx.failureCount >= 5 && ctx.successCount == 0 then 500 else 50)
    case CUSTOMER_REMINDER =>
      if !HasActiveLink(c, ctx) then Evaluation(false, 150, 0)
      else if c.attemptCount >= c.maxAttempts then Evaluation(false, 150, 0)
      else Evaluation(true, 150, 100)
    case WAIT_AND_REASSESS =>
      if c.category in {Some(FRAUD_RISK_BLOCK), Some(PERMANENT_INSTRUMENT_DECLINE)} then Evaluation(false, 0, 0)
      else
        var transientFailure :=
          c.isTransient || c.category in {Some(BANK_SYSTEM_OUTAGE), Some(TECHNICAL_GATEWAY_TIMEOUT)};
        Evaluation(transientFailure || c.attemptCount < c.maxAttempts, 0, 0)
    case HUMAN_ESCALATION =>
      var isHighValue := c.amountAtRisk >= p.highValueThreshold;
      var isChronic := c.attemptCount >= 1 && ctx.failureCount >= 3;
      var isVip := ctx.isLowRiskVip && c.amountAtRisk >= 1000000;
      Evaluation(isHighValue || isChronic || isVip || c.amountAtRisk >= 2000000, 10000, 0)
    case DO_NOTHING => Evaluation(true, 0, 0)
  }

  // ---- Candidates (domain/candidate_generator.py) ----

  const REGISTRY: seq<ActionType> :=
    [PAYMENT_LINK, CUSTOMER_REMINDER, WAIT_AND_REASSESS, HUMAN_ESCALATION, DO_NOTHING]

  predicate Offered(a: ActionType, c: Case, ctx: Context, p: Policy) {
    a !in p.disallowed && EvaluateStrategy(a, c, ctx, p).isEligible
  }

  function OfferedAmong(actions: seq<ActionType>, c: Case, ctx: Context, p: Policy): seq<ActionType> {
    if actions == [] then []
    else
      var n := |actions| - 1;
      OfferedAmong(actions[..n], c, ctx, p) + if Offered(actions[n], c, ctx, p) then [actions[n]] else []
  }

  function Candidates(c: Case, ctx: Context, p: Policy): seq<ActionType> {
    var offered := OfferedAmong(REGISTRY, c, ctx, p);
    if offered == [] || offered == [DO_NOTHING] then [DO_NOTHING] else offered
  }

  lemma {:induction false} OfferedAmongMembers(actions: seq<ActionType>, c: Case, ctx: Context, p: Policy)
    ensures var o := OfferedAmong(actions, c, ctx, p);
      forall a :: a in o <==> a in actions && Offered(a, c, ctx, p)
  {
    if actions != [] {
      var n := |actions| - 1;
      assert actions == actions[..n] + [actions[n]];
      OfferedAmongMembers(actions[..n], c, ctx, p);
    }
  }

  lemma {:induction false} OfferedAmongDistinct(actions: seq<ActionType>, c: Case, ctx: Context, p: Policy)
    requires forall i, j | 0 <= i < j < |actions| :: actions[i] != actions[j]
    ensures var o := OfferedAmong(actions, c, ctx, p);
      forall i, j | 0 <= i < j < |o| :: o[i] != o[j]
  {
    if actions != [] {
      var n := |actions| - 1;
      OfferedAmongDistinct(actions[..n], c, ctx, p);
      OfferedAmongMembers(actions[..n], c, ctx, p);
    }
  }

  lemma RegistryIsComplete()
    ensures forall a: ActionType :: a in REGISTRY
  {
    forall a: ActionType ensures a in REGISTRY {
      assert REGISTRY[TieOrder(a) - 1] == a;
    }
  }

  /** The candidates are exactly the eligible actions the merchant allows, each once; with none, DO_NOTHING alone. */
  lemma CandidatesExact(c: Case, ctx: Context, p: Policy)
    ensures var cs := Candidates(c, ctx, p);
      && cs != []
      && (forall a :: a in cs <==>
          Offered(a, c, ctx, p) || (a == DO_NOTHING && forall b :: !Offered(b, c, ctx, p)))
      && (cs != [DO_NOTHING] ==> forall a | a in cs :: Offered(a, c, ctx, p))
      && forall i, j | 0 <= i < j < |cs| :: cs[i] != cs[j]
  {
    RegistryIsComplete();
    OfferedAmongMembers(REGISTRY, c, ctx, p);
    OfferedAmongDistinct(REGISTRY, c, ctx, p);
    var o := OfferedAmong(REGISTRY, c, ctx, p);
    if o == [] {
      assert forall b :: b !in o;
    } else {
      assert Offered(o[0], c, ctx, p) by { assert o[0] in o; }
    }
  }

  method GenerateCandidates(c: Case, ctx: Context, p: Policy) returns (candidates: seq<ActionType>)
    ensures candidates == Candidates(c, ctx, p)
  {
    candidates := [];
    for i := 0 to |REGISTRY|
      invariant candidates == OfferedAmong(REGISTRY[..i], c, ctx, p)
    {
      assert REGISTRY[..i + 1][..i] == REGISTRY[..i];
      var action := REGISTRY[i];
      if action in p.disallowed {
        continue;
      }
      if EvaluateStrategy(action, c, ctx, p).isEligible {
        candidates := candidates + [action];
      }
    }
    assert REGISTRY[..|REGISTRY|] == REGISTRY;
    if candidates == [] || candidates == [DO_NOTHING] {
      candidates := [DO_NOTHING];
    }
  }

  // ---- Probability (domain/scoring/probability_scorer.py) ----

  const CERTAIN: int := 10000

  /** Base probability in percent. */
  function BasePercent(category: Option<Category>, a: ActionType): nat {
    if category.None? then 35 else
    match category.value
    case USER_AUTHENTICATION_DROPOFF =>
      if a in {PAYMENT_LINK, CUSTOMER_REMINDER} then 65 else if a == HUMAN_ESCALATION then 70 else 30
    case INSUFFICIENT_FUNDS =>
      if a in {PAYMENT_LINK, CUSTOMER_REMINDER} then 50 else if a == WAIT_AND_REASSESS then 40 else 25
    case BANK_SYSTEM_OUTAGE =>
      if a == WAIT_AND_REASSESS then 75 else if a == PAYMENT_LINK then 45 else 20
    case TECHNICAL_GATEWAY_TIMEOUT =>
      if a == WAIT_AND_REASSESS then 70 else if a == PAYMENT_LINK then 60 else 30
    case PERMANENT_INSTRUMENT_DECLINE =>
      if a == PAYMENT_LINK then 20 else if a == HUMAN_ESCALATION then 35 else 5
    case _ => 35
  }

  function HistoryPercent(ctx: Context): nat {
    var history := if ctx.successCount >= 3 then 115
                   else if ctx.failureCount >= 3 && ctx.successCount == 0 then 80
                   else 100;
    history + if ctx.previousRecoveries > 0 then 10 else 0
  }

  function DecayPercent(attemptCount: nat): nat {
    if 100 - 25 * attemptCount > 20 then 100 - 25 * attemptCount else 20
  }

  /** The unclamped heuristic score in millionths. */
  function RawScore(c: Case, ctx: Context, a: ActionType): nat {
    BasePercent(c.category, a) * (HistoryPercent(ctx) * DecayPercent(c.attemptCount))
  }

  function Clamp(x: int, hi: int): int {
    if x < 0 then 0 else if x > hi then hi else x
  }

  /** Python's round to four places, from millionths to ten-thousandths: ties go to the even neighbour. */
  function RoundHalfEven(millionths: nat): nat {
    var q, r := millionths / 100, millionths % 100;
    if r < 50 || (r == 50 && q % 2 == 0) then q else q + 1
  }

  /** The heuristic score, in ten-thousandths. */
  function HeuristicScore(c: Case, ctx: Context, a: ActionType): int {
    if a == DO_NOTHING then if c.isTransient then 500 else 100
    else if IsFraud(c) then 0
    else RoundHalfEven(Clamp(RawScore(c, ctx, a), 1000000))
  }

  /** The model's predictions, in ten-thousandths and unclamped; an action it has none for uses the heuristic. */
  type Model = map<ActionType, int>

  function Score(model: Model, c: Case, ctx: Context, a: ActionType): int {
    if IsFraud(c) then 0
    else if a in model then Clamp(model[a], CERTAIN)
    else HeuristicScore(c, ctx, a)
  }

  lemma RoundMonotone(n: nat, m: nat)
    requires n <= m
    ensures RoundHalfEven(n) <= RoundHalfEven(m)
  {
  }

  lemma ProductBounds(a: nat, b: nat, loA: nat, hiA: nat, loB: nat, hiB: nat)
    requires loA <= a <= hiA && loB <= b <= hiB
    ensures loA * loB <= a * b <= hiA * hiB
  {
  }

  /** For an active, non-fraud intervention the clamp never bites: the score stays within [0.008, 0.9375]. */
  lemma HeuristicRange(c: Case, ctx: Context, a: ActionType)
    requires a != DO_NOTHING && !IsFraud(c)
    ensures 8000 <= RawScore(c, ctx, a) <= 937500
    ensures 80 <= HeuristicScore(c, ctx, a) <= 9375
  {
    ProductBounds(HistoryPercent(ctx), DecayPercent(c.attemptCount), 80, 125, 20, 100);
    ProductBounds(BasePercent(c.category, a), HistoryPercent(ctx) * DecayPercent(c.attemptCount), 5, 75, 1600, 12500);
    RoundMonotone(8000, RawScore(c, ctx, a));
    RoundMonotone(RawScore(c, ctx, a), 937500);
  }

  lemma RawMonotone(base: nat, h: nat, d: nat, h': nat, d': nat)
    requires h <= h' && d <= d'
    ensures base * (h * d) <= base * (h' * d')
  {
    ProductBounds(h, d, 0, h', 0, d');
    ProductBounds(base, h * d, 0, base, 0, h' * d');
  }

  /** More attempts never raise the score; three or more past successes never lower it. */
  lemma HeuristicMonotone(c: Case, more: Case, ctx: Context, better: Context, a: ActionType)
    requires more == c.(attemptCount := more.attemptCount) && c.attemptCount <= more.attemptCount
    requires better == ctx.(successCount := better.successCount) && (better.successCount >= 3 || better == ctx)
    ensures HeuristicScore(more, ctx, a) <= HeuristicScore(c, better, a)
  {
    if a != DO_NOTHING && !IsFraud(c) {
      RawMonotone(BasePercent(c.category, a), HistoryPercent(ctx), DecayPercent(more.attemptCount),
                  HistoryPercent(better), DecayPercent(c.attemptCount));
      HeuristicRange(c, better, a);
      HeuristicRange(more, ctx, a);
      RoundMonotone(RawScore(more, ctx, a), RawScore(c, better, a));
    }
  }

  lemma ScoreInRange(model: Model, c: Case, ctx: Context, a: ActionType)
    ensures 0 <= Score(model, c, ctx, a) <= CERTAIN
  {
    if a != DO_NOTHING && !IsFraud(c) {
      HeuristicRange(c, ctx, a);
    }
  }

  // ---- Expected recovery value (domain/scoring/erv_calculator.py) ----

  function CalculateErv(a: ActionType, c: Case, ctx: Context, p: Policy, probability: int): ErvResult {
    var e := EvaluateStrategy(a, c, ctx, p);
    var gross := probability * c.amountAtRisk / CERTAIN;
    ErvResult(a, probability, gross, e.cost, e.penalty, gross - e.cost - e.penalty)
  }

  function ErvTable(candidates: seq<ActionType>, model: Model, c: Case, ctx: Context, p: Policy): (t: seq<ErvResult>)
    ensures |t| == |candidates|
    ensures forall i | 0 <= i < |t| ::
      t[i] == CalculateErv(candidates[i], c, ctx, p, Score(model, c, ctx, candidates[i]))
  {
    seq(|candidates|, i requires 0 <= i < |candidates| =>
      CalculateErv(candidates[i], c, ctx, p, Score(model, c, ctx, candidates[i])))
  }

  method ScoreCandidates(candidates: seq<ActionType>, model: Model, c: Case, ctx: Context, p: Policy)
    returns (results: seq<ErvResult>)
    ensures results == ErvTable(candidates, model, c, ctx, p)
  {
    results := [];
    for i := 0 to |candidates|
      invariant results == ErvTable(candidates, model, c, ctx, p)[..i]
    {
      var probability := Score(model, c, ctx, candidates[i]);
      results := results + [CalculateErv(candidates[i], c, ctx, p, probability)];
    }
  }

  // ---- Ranking (domain/scoring/erv_ranker.py) ----

  function TieOrder(a: ActionType): nat {
    match a
    case PAYMENT_LINK => 1
    case CUSTOMER_REMINDER => 2
    case WAIT_AND_REASSESS => 3
    case HUMAN_ESCALATION => 4
    case DO_NOTHING => 5
  }

  /** The sort key of x is at most that of y: net down, probability down, cost up, fixed action order. */
  predicate AtLeastAsGood(x: ErvResult, y: ErvResult) {
    if x.net != y.net then x.net > y.net
    else if x.probability != y.probability then x.probability > y.probability
    else if x.cost != y.cost then x.cost < y.cost
    else TieOrder(x.action) <= TieOrder(y.action)
  }

  predicate Ranked(s: seq<ErvResult>) {
    forall i, j | 0 <= i < j < |s| :: AtLeastAsGood(s[i], s[j])
  }

  /** No two different results for one action. */
  predicate OnePerAction(s: seq<ErvResult>) {
    forall x, y | x in s && y in s && x.action == y.action :: x == y
  }

  function InsertRanked(x: ErvResult, s: seq<ErvResult>): seq<ErvResult> {
    if s == [] || AtLeastAsGood(x, s[0]) then [x] + s else [s[0]] + InsertRanked(x, s[1..])
  }

  /** A stable sort by the key, as Python's sorted. */
  function RankCandidates(s: seq<ErvResult>): seq<ErvResult> {
    if s == [] then [] else InsertRanked(s[0], RankCandidates(s[1..]))
  }

  lemma {:induction false} InsertRankedMembers(x: ErvResult, s: seq<ErvResult>)
    ensures multiset(InsertRanked(x, s)) == multiset(s) + multiset{x}
  {
    if s != [] && !AtLeastAsGood(x, s[0]) {
      assert s == [s[0]] + s[1..];
      InsertRankedMembers(x, s[1..]);
    }
  }

  lemma {:induction false} InsertRankedSorts(x: ErvResult, s: seq<ErvResult>)
    requires Ranked(s)
    ensures Ranked(InsertRanked(x, s))
  {
    if s != [] && !AtLeastAsGood(x, s[0]) {
      InsertRankedSorts(x, s[1..]);
      InsertRankedMembers(x, s[1..]);
      var rest := InsertRanked(x, s[1..]);
      forall j | 0 <= j < |rest| ensures AtLeastAsGood(s[0], rest[j]) {
        assert rest[j] in multiset(rest);
        assert rest[j] in s[1..] || rest[j] == x;
      }
    }
  }

  /** Ranking returns a sorted permutation of its input. */
  lemma {:induction false} RankSortsPermutation(s: seq<ErvResult>)
    ensures Ranked(RankCandidates(s)) && multiset(RankCandidates(s)) == multiset(s)
  {
    if s != [] {
      RankSortsPermutation(s[1..]);
      InsertRankedSorts(s[0], RankCandidates(s[1..]));
      InsertRankedMembers(s[0], RankCandidates(s[1..]));
      assert s == [s[0]] + s[1..];
    }
  }

  lemma SameResults(s: seq<ErvResult>, t: seq<ErvResult>)
    requires multiset(s) == multiset(t)
    ensures |s| == |t| && forall x :: x in s <==> x in t
  {
    assert |multiset(s)| == |s| && |multiset(t)| == |t|;
    forall x ensures x in s <==> x in t {
      assert x in s <==> x in multiset(s);
      assert x in t <==> x in multiset(t);
    }
  }

  lemma TailsOfSameResults(s: seq<ErvResult>, t: seq<ErvResult>)
    requires s != [] && t != [] && s[0] == t[0] && multiset(s) == multiset(t)
    ensures multiset(s[1..]) == multiset(t[1..])
  {
    assert s == [s[0]] + s[1..] && t == [t[0]] + t[1..];
    assert multiset(s[1..]) == multiset(s) - multiset{s[0]};
    assert multiset(t[1..]) == multiset(t) - multiset{t[0]};
  }

  /** The key leaves no ties among results with one entry per action. */
  lemma SameHead(s: seq<ErvResult>, t: seq<ErvResult>)
    requires Ranked(s) && Ranked(t) && OnePerAction(s) && s != [] && |s| == |t|
    requires forall x :: x in s <==> x in t
    ensures s[0] == t[0]
  {
    assert s[0] in t && t[0] in s;
    assert s[0] != t[0] ==> AtLeastAsGood(s[0], t[0]) && AtLeastAsGood(t[0], s[0]);
  }

  lemma {:induction false} RankedPermutationUnique(s: seq<ErvResult>, t: seq<ErvResult>)
    requires Ranked(s) && Ranked(t) && multiset(s) == multiset(t) && OnePerAction(s)
    ensures s == t
  {
    SameResults(s, t);
    if s != [] {
      SameHead(s, t);
      TailsOfSameResults(s, t);
      assert forall x | x in s[1..] :: x in s;
      RankedPermutationUnique(s[1..], t[1..]);
      assert s == [s[0]] + s[1..] && t == [t[0]] + t[1..];
    }
  }

  /** Any reordering of results with one entry per action ranks the same. */
  lemma RankingIgnoresInputOrder(s: seq<ErvResult>, t: seq<ErvResult>)
    requires multiset(s) == multiset(t) && OnePerAction(s)
    ensures RankCandidates(s) == RankCandidates(t)
  {
    RankSortsPermutation(s);
    RankSortsPermutation(t);
    SameResults(s, RankCandidates(s));
    RankedPermutationUnique(RankCandidates(s), RankCandidates(t));
  }

  /** The ranked expected-value table of a case, top first. */
  function Rankings(model: Model, c: Case, ctx: Context, p: Policy): seq<ErvResult> {
    RankCandidates(ErvTable(Candidates(c, ctx, p), model, c, ctx, p))
  }

  lemma RankingsExact(model: Model, c: Case, ctx: Context, p: Policy)
    ensures var r := Rankings(model, c, ctx, p);
      && r != [] && r[0].action in Candidates(c, ctx, p)
      && (forall x | x in r :: r[0].net >= x.net)
      && forall x :: x in r <==>
           (x.action in Candidates(c, ctx, p) && x == CalculateErv(x.action, c, ctx, p, Score(model, c, ctx, x.action)))
  {
    var cs := Candidates(c, ctx, p);
    var t := ErvTable(cs, model, c, ctx, p);
    CandidatesExact(c, ctx, p);
    RankSortsPermutation(t);
    var r := RankCandidates(t);
    SameResults(t, r);
    forall x ensures x in r <==>
      x.action in cs && x == CalculateErv(x.action, c, ctx, p, Score(model, c, ctx, x.action)) {
      if x.action in cs && x == CalculateErv(x.action, c, ctx, p, Score(model, c, ctx, x.action)) {
        var i :| 0 <= i < |cs| && cs[i] == x.action;
        assert t[i] == x;
      }
    }
    assert r[0] in r;
  }

  /** The action's gross expected recovery covers its cost and penalty. */
  predicate PaysForItself(a: ActionType, model: Model, c: Case, ctx: Context, p: Policy) {
    var e := EvaluateStrategy(a, c, ctx, p);
    Score(model, c, ctx, a) * c.amountAtRisk / CERTAIN >= e.cost + e.penalty
  }

  /** The best net value is non-negative exactly when some candidate's gross covers its cost and penalty. */
  lemma TopValueNonNegativeExactly(model: Model, c: Case, ctx: Context, p: Policy)
    ensures Rankings(model, c, ctx, p) != []
    ensures Rankings(model, c, ctx, p)[0].net >= 0 <==>
      exists a :: a in Candidates(c, ctx, p) && PaysForItself(a, model, c, ctx, p)
  {
    RankingsExact(model, c, ctx, p);
    var r := Rankings(model, c, ctx, p);
    if a :| a in Candidates(c, ctx, p) && PaysForItself(a, model, c, ctx, p) {
      assert CalculateErv(a, c, ctx, p, Score(model, c, ctx, a)) in r;
    }
    if r[0].net >= 0 {
      assert r[0] in r;
      assert PaysForItself(r[0].action, model, c, ctx, p);
    }
  }

  lemma GrossNonNegative(probability: int, amount: int)
    requires probability >= 0 && amount >= 0
    ensures probability * amount / CERTAIN >= 0
  {
    ProductBounds(probability, amount, 0, probability, 0, amount);
  }

  /** DO_NOTHING or WAIT_AND_REASSESS among the candidates is enough. */
  lemma FreeCandidateSuffices(model: Model, c: Case, ctx: Context, p: Policy)
    requires c.amountAtRisk >= 0
    requires DO_NOTHING in Candidates(c, ctx, p) || WAIT_AND_REASSESS in Candidates(c, ctx, p)
    ensures Rankings(model, c, ctx, p) != [] && Rankings(model, c, ctx, p)[0].net >= 0
  {
    var a := if DO_NOTHING in Candidates(c, ctx, p) then DO_NOTHING else WAIT_AND_REASSESS;
    ScoreInRange(model, c, ctx, a);
    TopValueNonNegativeExactly(model, c, ctx, p);
    GrossNonNegative(Score(model, c, ctx, a), c.amountAtRisk);
    assert PaysForItself(a, model, c, ctx, p);
  }

  // ---- Policy (domain/policy/engine.py) ----

  datatype PolicyResult = PolicyResult(verdict: Verdict, authorized: ActionType, rule: Rule, delaySeconds: Option<int>)

  function CooldownMicros(p: Policy): int {
    p.cooldownMinutes * 60 * MICROS_PER_SECOND
  }

  predicate InCooldown(c: Case, p: Policy, now: int) {
    c.lastAttemptAt.Some? && now - c.lastAttemptAt.value < CooldownMicros(p)
  }

  /** The first ranked action that is neither disallowed nor the one proposed. */
  function NextAllowed(rankings: seq<ErvResult>, proposed: ActionType, p: Policy): ActionType {
    if rankings == [] then DO_NOTHING
    else if rankings[0].action !in p.disallowed && rankings[0].action != proposed then rankings[0].action
    else NextAllowed(rankings[1..], proposed, p)
  }

  /** Ten rules in strict order; the first that applies decides. */
  function EvaluatePolicy(
    proposed: ActionType, c: Case, ctx: Context, p: Policy, rankings: seq<ErvResult>, now: int): PolicyResult
  {
    if Terminal(c.status) then
      PolicyResult(VerdictRejected, DO_NOTHING, CASE_ALREADY_TERMINAL, None)
    else if now >= c.deadline then
      PolicyResult(VerdictModified, DO_NOTHING, DEADLINE_EXPIRED, None)
    else if c.attemptCount >= p.maxAttempts then
      PolicyResult(VerdictModified, DO_NOTHING, MAX_ATTEMPTS_EXCEEDED, None)
    else if InCooldown(c, p, now) && proposed !in {WAIT_AND_REASSESS, DO_NOTHING} then
      PolicyResult(VerdictModified, WAIT_AND_REASSESS, COOLDOWN_ACTIVE,
        Some((CooldownMicros(p) - (now - c.lastAttemptAt.value)) / MICROS_PER_SECOND))
    else if IsFraud(c) && proposed != DO_NOTHING then
      PolicyResult(VerdictRejected, DO_NOTHING, FRAUD_RISK_GUARD, None)
    else if proposed == CUSTOMER_REMINDER && !HasActiveLink(c, ctx) then
      PolicyResult(VerdictModified, PAYMENT_LINK, NO_ACTIVE_PAYMENT_LINK, None)
    else if c.amountAtRisk >= p.highValueThreshold && proposed != HUMAN_ESCALATION then
      PolicyResult(VerdictEscalated, HUMAN_ESCALATION, HIGH_VALUE_THRESHOLD_EXCEEDED, None)
    else if proposed in p.disallowed then
      PolicyResult(VerdictModified, NextAllowed(rankings, proposed, p), ACTION_DISALLOWED_BY_MERCHANT, None)
    else if proposed == DO_NOTHING then
      PolicyResult(VerdictApproved, DO_NOTHING, NO_INTERVENTION_AUTHORIZED, None)
    else
      PolicyResult(VerdictApproved, proposed, POLICY_APPROVAL_CLEARED, None)
  }

  // ---- The pipeline: any AI reply, then policy ----

  /** What the AI step yields: switched off, an exception, or a recommendation of any action. */
  datatype AiReply =
    | AiDisabled
    | AiFailed(kind: string, message: string)
    | AiRecommends(advice: Recommendation, metadata: Metadata)

  /** The action put to the policy engine. */
  function Proposed(reply: AiReply, model: Model, c: Case, ctx: Context, p: Policy): ActionType
    requires Rankings(model, c, ctx, p) != []
  {
    if reply.AiRecommends? && reply.advice.action in Candidates(c, ctx, p) then reply.advice.action
    else Rankings(model, c, ctx, p)[0].action
  }

  function Authorize(reply: AiReply, model: Model, c: Case, ctx: Context, p: Policy, now: int): PolicyResult
    requires Rankings(model, c, ctx, p) != []
  {
    EvaluatePolicy(Proposed(reply, model, c, ctx, p), c, ctx, p, Rankings(model, c, ctx, p), now)
  }

  /** Everything that must hold before a customer is contacted. */
  predicate ContactGates(a: ActionType, c: Case, ctx: Context, p: Policy, now: int) {
    && !Terminal(c.status) && now < c.deadline
    && c.attemptCount < p.maxAttempts && c.attemptCount < c.maxAttempts
    && !InCooldown(c, p, now) && !IsFraud(c)
    && c.amountAtRisk < p.highValueThreshold
    && a !in p.disallowed
    && (a == PAYMENT_LINK ==> c.amountAtRisk > 0)
    && (a == CUSTOMER_REMINDER ==> HasActiveLink(c, ctx))
  }

  /** For every AI reply: the customer is contacted exactly with the proposed action and exactly when all gates pass. */
  lemma PipelineContactsExactlyThroughGates(
    reply: AiReply, model: Model, c: Case, ctx: Context, p: Policy, now: int, a: ActionType)
    requires a in {PAYMENT_LINK, CUSTOMER_REMINDER}
    ensures Rankings(model, c, ctx, p) != []
    ensures Authorize(reply, model, c, ctx, p, now).authorized == a <==>
      Proposed(reply, model, c, ctx, p) == a && ContactGates(a, c, ctx, p, now)
  {
    PipelineRules(reply, model, c, ctx, p, now);
    CandidatesExact(c, ctx, p);
    RankingsExact(model, c, ctx, p);
  }

  /** What stops any intervention: a closed or overdue case, the merchant's attempt limit, fraud. */
  predicate Open(proposed: ActionType, c: Case, p: Policy, now: int) {
    !Terminal(c.status) && now < c.deadline && c.attemptCount < p.maxAttempts && (IsFraud(c) ==> proposed == DO_NOTHING)
  }

  /** For every AI reply, the other three answers of the policy engine, each exactly: a person is called in for a
      case that is open and not cooling down when that was proposed or the amount reaches the threshold; the case
      waits when that was proposed below the threshold, or when an active proposal meets a cooldown; and otherwise,
      unless the customer is contacted, nothing is done. */
  lemma PipelineAuthorizesExactly(reply: AiReply, model: Model, c: Case, ctx: Context, p: Policy, now: int)
    ensures Rankings(model, c, ctx, p) != []
    ensures var proposed := Proposed(reply, model, c, ctx, p);
      var authorized := Authorize(reply, model, c, ctx, p, now).authorized;
      var isActive := proposed !in {WAIT_AND_REASSESS, DO_NOTHING};
      && (authorized == HUMAN_ESCALATION <==>
            && Open(proposed, c, p, now) && !(InCooldown(c, p, now) && isActive)
            && (proposed == HUMAN_ESCALATION || c.amountAtRisk >= p.highValueThreshold))
      && (authorized == WAIT_AND_REASSESS <==>
            if InCooldown(c, p, now) && isActive
            then !Terminal(c.status) && now < c.deadline && c.attemptCount < p.maxAttempts
            else Open(proposed, c, p, now) && proposed == WAIT_AND_REASSESS && c.amountAtRisk < p.highValueThreshold)
      && (authorized in {PAYMENT_LINK, CUSTOMER_REMINDER} ==> authorized == proposed)
  {
    PipelineRules(reply, model, c, ctx, p, now);
    CandidatesExact(c, ctx, p);
  }

  /** In the pipeline rule 6 never fires, and rule 8 fires only to hold back DO_NOTHING itself. */
  lemma PipelineRules(reply: AiReply, model: Model, c: Case, ctx: Context, p: Policy, now: int)
    ensures Rankings(model, c, ctx, p) != []
    ensures Proposed(reply, model, c, ctx, p) in Candidates(c, ctx, p)
    ensures var r := Authorize(reply, model, c, ctx, p, now);
      && r.rule != NO_ACTIVE_PAYMENT_LINK
      && (r.rule == ACTION_DISALLOWED_BY_MERCHANT ==>
            r.authorized == DO_NOTHING && Candidates(c, ctx, p) == [DO_NOTHING])
  {
    CandidatesExact(c, ctx, p);
    RankingsExact(model, c, ctx, p);
    var cs := Candidates(c, ctx, p);
    var proposed := Proposed(reply, model, c, ctx, p);
    if proposed in p.disallowed {
      assert proposed == DO_NOTHING && forall b :: !Offered(b, c, ctx, p);
      NextAllowedIsRanked(Rankings(model, c, ctx, p), proposed, p);
    }
  }

  lemma {:induction false} NextAllowedIsRanked(rankings: seq<ErvResult>, proposed: ActionType, p: Policy)
    ensures var a := NextAllowed(rankings, proposed, p);
      a == DO_NOTHING || exists x :: x in rankings && x.action == a
  {
    if rankings != [] {
      assert rankings[0] in rankings;
      NextAllowedIsRanked(rankings[1..], proposed, p);
    }
  }

  /** Outside the pipeline the engine alone can answer a reminder with a payment link the merchant disallows. */
  lemma EngineAloneIsNotEnough()
    ensures exists c: Case, ctx: Context, p: Policy, now: int ::
      && EvaluatePolicy(CUSTOMER_REMINDER, c, ctx, p, [], now).authorized == PAYMENT_LINK
      && PAYMENT_LINK in p.disallowed && c.attemptCount >= c.maxAttempts
  {
    var c := Case(0, 0, 0, 100, 0, "INR", DIAGNOSING, [DIAGNOSING], None, false, None, None, None, None,
                  2, 2, 10, None, None, false);
    var ctx := Context(false, 0, 0, 0, false);
    var p := Policy(5, 30, 5000000, {PAYMENT_LINK});
    assert EvaluatePolicy(CUSTOMER_REMINDER, c, ctx, p, [], 0).authorized == PAYMENT_LINK;
  }
}
