/** The services' audit records written through the concurrent append protocol, merchant by merchant. */
module LedgerOfRuns {
  import opened Domain
  import Tables
  import Runs
  import Histories
  import opened AuditLedger
  import AV = AuditVerify

  /** How a record is written out: its text fields, and its timestamp by position. */
  datatype Writer = Writer(hash: HashFn, body: Tables.Audit -> Body, timestamp: nat -> string)

  /** The record_event calls behind a run's records, in order. */
  function Written(w: Writer, ledger: seq<Tables.Audit>): (calls: seq<Write>)
    ensures |calls| == |ledger|
  {
    seq(|ledger|, i requires 0 <= i < |ledger| => Write(ledger[i].merchant, w.body(ledger[i]), w.timestamp(i)))
  }

  /** A merchant's chain depends on its own calls only. */
  lemma {:induction false} SerialOfOwn(hash: HashFn, log: seq<Write>, m: nat)
    ensures Serial(hash, Own(log, m), m) == Serial(hash, log, m)
  {
    if log != [] {
      var n := |log| - 1;
      SerialOfOwn(hash, log[..n], m);
      if log[n].merchant == m {
        SerialGrows(hash, Own(log[..n], m), log[n], m);
      } else {
        assert Own(log, m) == Own(log[..n], m);
      }
    }
  }

  /** However many writers wrote a run's records, interleaved in whatever way, as long as each merchant's were
      committed in order: the merchant's committed rows are the chain of its records in that order, each with its
      record's body and timestamp column by column, numbered from 1, linked from genesis, recomputable, and accepted by
      the verifier. */
  lemma RunsWriteVerifiableChains(w: Writer, ops: seq<Runs.Op>, acts: seq<Act>, m: nat)
    requires var calls := Written(w, Runs.Run(Tables.EMPTY, ops).ledger);
      Own(Run(w.hash, AuditLedger.EMPTY, acts).log, m) == Own(calls, m)
    ensures var chain := Serial(w.hash, Written(w, Runs.Run(Tables.EMPTY, ops).ledger), m);
      var rows := Run(w.hash, AuditLedger.EMPTY, acts).rows;
      var own := Own(Written(w, Runs.Run(Tables.EMPTY, ops).ledger), m);
      && Gapless(rows, m, |chain|) && ChainOf(rows, m, |chain|) == chain && |chain| == |own|
      && (forall i | 0 <= i < |own| :: Carries(chain[i], own[i].body, own[i].timestamp))
      && WellFormed(w.hash, chain) && AV.AllAccepted(chain)
  {
    var s := Run(w.hash, AuditLedger.EMPTY, acts);
    var calls := Written(w, Runs.Run(Tables.EMPTY, ops).ledger);
    SerialOfOwn(w.hash, s.log, m);
    SerialOfOwn(w.hash, calls, m);
    EveryRunIsSerial(w.hash, acts, m);
    SerialCarries(w.hash, calls, m);
    EmptyIsChained(w.hash);
    EveryRunKeepsLedgers(w.hash, AuditLedger.EMPTY, acts);
    ChainRowsWellFormed(w.hash, s.rows, m, |Serial(w.hash, calls, m)|);
    AV.WellFormedIsAccepted(w.hash, Serial(w.hash, calls, m));
  }

  // ---- Such interleavings exist ----

  lemma {:induction false} RunJoin(hash: HashFn, s: System, a: seq<Act>, b: seq<Act>)
    ensures Run(hash, s, a + b) == Run(hash, Run(hash, s, a), b)
    decreases |a|
  {
    if a == [] {
      assert a + b == b;
    } else {
      assert (a + b)[1..] == a[1..] + b;
      RunJoin(hash, Step(hash, s, a[0]), a[1..], b);
    }
  }

  /** One call on its own: read the last row, insert, commit. */
  ghost function Append(hash: HashFn, s: System, x: Write): seq<Act> {
    [Read(0, x.merchant, LastOf(Serial(hash, s.log, x.merchant))), Insert(0, x.body, x.timestamp), Commit(0)]
  }

  /** The transaction after its read and its insert. */
  lemma AppendInserts(hash: HashFn, s: System, x: Write) returns (s2: System)
    requires SerialInv(hash, s) && s.txns == map[]
    ensures var acts := Append(hash, s, x); s2 == Step(hash, Step(hash, s, acts[0]), acts[1])
    ensures 0 in s2.txns && s2.txns.Keys == {0} && s2.txns[0].writes == [x] && s2.log == s.log
  {
    var m, last := x.merchant, LastOf(Serial(hash, s.log, x.merchant));
    var acts := Append(hash, s, x);
    assert Holds(s.rows, m, Serial(hash, s.log, m)) && MerchantChain(hash, s.rows, m);
    LastEntryIsLast(hash, s.rows, m, Serial(hash, s.log, m));
    var s1 := Step(hash, s, acts[0]);
    assert s1 == s.(txns := map[0 := Txn(m, Some(last), map[], [])]);
    assert Visible(s1, 0) == s.rows;
    StepKeepsInv(hash, s, acts[0]);
    StaleInsertAborts(hash, s1, 0, x.body, x.timestamp);
    s2 := Step(hash, s1, acts[1]);
  }

  lemma RunOfThree(hash: HashFn, s: System, a: Act, b: Act, c: Act)
    ensures Run(hash, s, [a, b, c]) == Step(hash, Step(hash, Step(hash, s, a), b), c)
  {
    var acts := [a, b, c];
    assert acts[1..] == [b, c] && [b, c][1..] == [c] && [c][1..] == [];
    assert Run(hash, Step(hash, s, a), [b, c]) == Run(hash, Step(hash, Step(hash, s, a), b), [c]);
    assert Run(hash, Step(hash, Step(hash, s, a), b), [c])
        == Run(hash, Step(hash, Step(hash, Step(hash, s, a), b), c), []);
  }

  lemma AppendCommits(hash: HashFn, s: System, x: Write)
    requires SerialInv(hash, s) && s.txns == map[]
    ensures var s' := Run(hash, s, Append(hash, s, x)); s'.txns == map[] && s'.log == s.log + [x]
  {
    var acts := Append(hash, s, x);
    var s2 := AppendInserts(hash, s, x);
    RunOfThree(hash, s, acts[0], acts[1], acts[2]);
    assert acts == [acts[0], acts[1], acts[2]];
    assert s2.txns - {0} == map[];
  }

  ghost predicate Writes(hash: HashFn, acts: seq<Act>, calls: seq<Write>) {
    Run(hash, AuditLedger.EMPTY, acts).log == calls && Run(hash, AuditLedger.EMPTY, acts).txns == map[]
  }

  /** Every list of calls is the log of some run of the protocol. */
  lemma {:induction false} EveryLogIsWritten(hash: HashFn, calls: seq<Write>)
    ensures exists acts :: Writes(hash, acts, calls)
  {
    if calls == [] {
      assert Writes(hash, [], calls);
    } else {
      var n := |calls| - 1;
      EveryLogIsWritten(hash, calls[..n]);
      var acts :| Writes(hash, acts, calls[..n]);
      var s := Run(hash, AuditLedger.EMPTY, acts);
      EmptyIsSerial(hash);
      RunKeepsSerial(hash, AuditLedger.EMPTY, acts);
      AppendCommits(hash, s, calls[n]);
      RunJoin(hash, AuditLedger.EMPTY, acts, Append(hash, s, calls[n]));
      assert calls == calls[..n] + [calls[n]];
      assert Writes(hash, acts + Append(hash, s, calls[n]), calls);
    }
  }

  // ---- Later records are appended ----

  lemma {:induction false} SerialPrefix(hash: HashFn, a: seq<Write>, b: seq<Write>, m: nat)
    requires a <= b
    ensures Serial(hash, a, m) <= Serial(hash, b, m)
    decreases |b|
  {
    if |a| < |b| {
      SerialPrefix(hash, a, b[..|b| - 1], m);
    } else {
      assert a == b;
    }
  }

  /** What a run adds later is appended to each merchant's chain. */
  lemma RunsOnlyAppendToChains(w: Writer, ops: seq<Runs.Op>, more: seq<Runs.Op>, m: nat)
    ensures var now := Runs.Run(Tables.EMPTY, ops);
      Serial(w.hash, Written(w, now.ledger), m) <= Serial(w.hash, Written(w, Runs.Run(now, more).ledger), m)
  {
    var now := Runs.Run(Tables.EMPTY, ops);
    var later := Runs.Run(now, more);
    LedgerGrows(ops, more);
    SerialPrefix(w.hash, Written(w, now.ledger), Written(w, later.ledger), m);
  }

  lemma LedgerGrows(ops: seq<Runs.Op>, more: seq<Runs.Op>)
    ensures Runs.Run(Tables.EMPTY, ops).ledger <= Runs.Run(Runs.Run(Tables.EMPTY, ops), more).ledger
  {
    Histories.ReachableInv(ops);
    Runs.RunKeepsInv(Runs.Run(Tables.EMPTY, ops), more);
  }
}
