/** A run that credits one captured payment to two cases of one order. */
module DoubleCredit {
  import opened Domain
  import opened Tables
  import opened Services
  import opened Invariants
  import opened Runs
  import opened Credits
  import opened Scenarios

  const SHOP := Shop(0, "o", "INR", "")
  const PAID_AGAIN := SuccessEvent(SHOP, "pp", "order.paid", "captured")

  /** Another failure on the recovered order opened a second case. */
  predicate FailedAgain(db: Db) {
    && OneOrder(db, SHOP) && |db.payments| == 3
    && db.payments[0].externalId == "p" && db.payments[1] == Row(SHOP, "pp", PayCaptured)
    && |db.outcomes| == 1 && db.outcomes[0].caseId == 0 && db.outcomes[0].settlingPayment == 1
    && |db.cases| == 2 && db.cases[0].status == RECOVERED && OpenCase(db.cases[1], SHOP)
    && |db.events| == 3
    && db.events[0].eventId == "a" && db.events[1].eventId == "bb" && db.events[2].eventId == "ccc"
  }

  lemma ReachFailedAgain() returns (db: Db)
    ensures Reached(db) && FailedAgain(db)
  {
    var d0 := ReachRecovered(SHOP, "p", "pp");
    var d1 := Deliver(d0, SHOP, "ccc", FailureEvent(SHOP, "ppp"));
    FailureOpens(d1, 2, SHOP, "ppp");
    ReachedNext(d1, Processing(2));
    db := Apply(d1, Processing(2));
    assert db.cases[..1][0] == db.cases[0];
  }

  /** And that case was approved. */
  predicate Reopened(db: Db) {
    && OneOrder(db, SHOP) && |db.payments| == 3
    && db.payments[0].externalId == "p" && db.payments[1] == Row(SHOP, "pp", PayCaptured)
    && |db.outcomes| == 1 && db.outcomes[0].caseId == 0 && db.outcomes[0].settlingPayment == 1
    && |db.cases| == 2 && db.cases[0].status == RECOVERED
    && db.cases[1].status == APPROVED && db.cases[1].order == 0 && db.cases[1].currency == SHOP.currency
    && |db.events| == 3
    && db.events[0].eventId == "a" && db.events[1].eventId == "bb" && db.events[2].eventId == "ccc"
  }

  lemma ReachReopened() returns (db: Db)
    ensures Reached(db) && Reopened(db)
  {
    var d0 := ReachFailedAgain();
    DecisionApproves(d0, 1, SHOP);
    ReachedNext(d0, Approving(1));
    db := Apply(d0, Approving(1));
  }

  lemma SecondSuccessCreditsAgain(db: Db)
    requires Reopened(db)
    ensures EventCreditsAgain(db, 0, PAID_AGAIN)
  {
    TheOrderIsFound(db, SHOP);
    FindPaymentFound(db.payments, 0, "pp");
    assert db.payments[1].externalId == "pp";
    FirstVerifiableFound(db.cases, 0);
    assert Verifiable(db.cases[1], 0) && !Verifiable(db.cases[0], 0);
    assert FirstVerifiable(db.cases, 0) == Some(1);
    assert db.outcomes[0].settlingPayment == 1 && db.outcomes[0].caseId == 0;
  }

  /** One captured payment, two outcomes: a second success event for it, after the order failed again, credits the new
      case with the payment that settled the old one, and the metrics count it twice. */
  lemma OnePaymentCreditedTwice()
    ensures exists ops, i, j ::
      var db := Run(EMPTY, ops);
      && 0 <= i < j < |db.outcomes| && db.outcomes[i].settlingPayment == db.outcomes[j].settlingPayment
      && db.outcomes[i].caseId != db.outcomes[j].caseId
  {
    var d0 := ReachReopened();
    var d1 := Deliver(d0, SHOP, "dddd", PAID_AGAIN);
    SecondSuccessCreditsAgain(d0);
    assert EventCreditsAgain(d1, 0, PAID_AGAIN);
    assert CreditsAgain(d1, Processing(3));
    ReachedSound(d1);
    StepCreditsOnceExactly(d1, Processing(3));
    ReachedNext(d1, Processing(3));
    ReachedTwice(Apply(d1, Processing(3)));
  }

  lemma ReachedTwice(db: Db)
    requires Reached(db) && !OneCreditPerPayment(db.outcomes)
    ensures exists ops, i, j ::
      var db := Run(EMPTY, ops);
      && 0 <= i < j < |db.outcomes| && db.outcomes[i].settlingPayment == db.outcomes[j].settlingPayment
      && db.outcomes[i].caseId != db.outcomes[j].caseId
  {
    var ops :| Run(EMPTY, ops) == db;
    ReachedSound(db);
    var i, j :| 0 <= i < j < |db.outcomes| && db.outcomes[i].settlingPayment == db.outcomes[j].settlingPayment;
    assert OneOutcomePerCase(db.outcomes);
    assert Run(EMPTY, ops).outcomes[i].settlingPayment == Run(EMPTY, ops).outcomes[j].settlingPayment;
  }
}
