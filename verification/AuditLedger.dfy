/**
 The per-merchant hash chain (backend/packages/persistence/audit_ledger.py) and its concurrent append protocol.
 The hash is any function on text; nothing here needs it to be injective.
 */
module AuditLedger {
  import opened Domain
  import opened AuditHash

  const GENESIS: string := "0000000000000000000000000000000000000000000000000000000000000000"

  type HashFn = string -> string

  /** One row of audit_events; its merchant is part of the row's key. */
  datatype Entry = Entry(fields: Fields, hash: string)

  /** The unique constraint uq_merchant_audit_seq. */
  datatype Key = Key(merchant: nat, seqNo: nat)

  type Rows = map<Key, Entry>

  datatype Body = Body(
    entityType: string, entityId: string, action: string, actorType: string, actorId: string, payload: string)

  /** The row that record_event computes from the last row it read. */
  function NextEntry(hash: HashFn, last: Option<Entry>, b: Body, timestamp: string): Entry {
    var f := Fields(
      if last.None? then 1 else last.value.fields.seqNo + 1,
      if last.None? then GENESIS else last.value.hash,
      b.entityType, b.entityId, b.action, b.actorType, b.actorId, b.payload, timestamp);
    Entry(f, hash(Preimage(f)))
  }

  /** A row holds what a call was given, each value in its own column. */
  predicate Carries(e: Entry, b: Body, timestamp: string) {
    && e.fields.entityType == b.entityType && e.fields.entityId == b.entityId && e.fields.action == b.action
    && e.fields.actorType == b.actorType && e.fields.actorId == b.actorId && e.fields.payload == b.payload
    && e.fields.timestamp == timestamp
  }

  // ---- Ledger well-formedness ----

  /** A merchant's ledger in sequence order: numbered 1..n, linked from genesis, every hash recomputable. */
  ghost predicate WellFormed(hash: HashFn, chain: seq<Entry>) {
    forall i | 0 <= i < |chain| :: InOrder(hash, chain, i)
  }

  predicate InOrder(hash: HashFn, chain: seq<Entry>, i: nat)
    requires i < |chain|
  {
    && chain[i].fields.seqNo == i + 1
    && chain[i].fields.prevHash == (if i == 0 then GENESIS else chain[i - 1].hash)
    && chain[i].hash == hash(Preimage(chain[i].fields))
  }

  ghost predicate Gapless(rows: Rows, m: nat, n: nat) {
    forall k: nat :: Key(m, k) in rows <==> 1 <= k <= n
  }

  ghost predicate HasLength(rows: Rows, m: nat) {
    exists n: nat :: Gapless(rows, m, n)
  }

  /** Row `k` of merchant `m` carries its own number, a recomputable hash, and its predecessor's hash. */
  ghost predicate Linked(hash: HashFn, rows: Rows, m: nat, k: nat)
    requires Key(m, k) in rows
  {
    var e := rows[Key(m, k)];
    && e.fields.seqNo == k
    && e.hash == hash(Preimage(e.fields))
    && (k == 1 ==> e.fields.prevHash == GENESIS)
    && (k > 1 ==> Key(m, k - 1) in rows && e.fields.prevHash == rows[Key(m, k - 1)].hash)
  }

  ghost predicate MerchantChain(hash: HashFn, rows: Rows, m: nat) {
    && HasLength(rows, m)
    && forall k: nat | Key(m, k) in rows :: Linked(hash, rows, m, k)
  }

  ghost predicate ChainRows(hash: HashFn, rows: Rows) {
    forall m: nat :: MerchantChain(hash, rows, m)
  }

  /** Two tables hold the same rows for a merchant. */
  ghost predicate Agree(a: Rows, b: Rows, m: nat) {
    forall k: nat :: (Key(m, k) in a <==> Key(m, k) in b) && (Key(m, k) in a ==> a[Key(m, k)] == b[Key(m, k)])
  }

  lemma AgreeingChain(hash: HashFn, a: Rows, b: Rows, m: nat)
    requires Agree(a, b, m) && MerchantChain(hash, a, m)
    ensures MerchantChain(hash, b, m)
  {
    var n: nat :| Gapless(a, m, n);
    assert Gapless(b, m, n);
    forall k: nat | Key(m, k) in b ensures Linked(hash, b, m, k) {
      assert Linked(hash, a, m, k);
    }
  }

  /** `last` is what `ORDER BY sequence_number DESC LIMIT 1` returns. */
  ghost predicate IsLast(rows: Rows, m: nat, last: Option<Entry>) {
    match last
    case None => forall k: nat :: Key(m, k) !in rows
    case Some(e) =>
      && Key(m, e.fields.seqNo) in rows && rows[Key(m, e.fields.seqNo)] == e
      && forall k: nat | Key(m, k) in rows :: k <= e.fields.seqNo
  }

  /** The ledger of a merchant whose rows are numbered 1..n. */
  ghost function ChainOf(rows: Rows, m: nat, n: nat): (chain: seq<Entry>)
    requires Gapless(rows, m, n)
    ensures |chain| == n && forall i | 0 <= i < n :: Key(m, i + 1) in rows && chain[i] == rows[Key(m, i + 1)]
  {
    seq(n, i requires 0 <= i < n => rows[Key(m, i + 1)])
  }

  lemma ChainRowsWellFormed(hash: HashFn, rows: Rows, m: nat, n: nat)
    requires ChainRows(hash, rows) && Gapless(rows, m, n)
    ensures WellFormed(hash, ChainOf(rows, m, n))
  {
    var chain := ChainOf(rows, m, n);
    assert MerchantChain(hash, rows, m);
    forall i | 0 <= i < n ensures InOrder(hash, chain, i) {
      assert Linked(hash, rows, m, i + 1);
      if i > 0 {
        assert chain[i - 1] == rows[Key(m, i)];
      }
    }
  }

  /** A remembered read names a row that is still there. */
  ghost predicate ReadIn(rows: Rows, m: nat, last: Option<Entry>) {
    last.Some? ==> Key(m, last.value.fields.seqNo) in rows && rows[Key(m, last.value.fields.seqNo)] == last.value
  }

  /** The key computed from a read is free exactly when the read is still the last row. */
  lemma KeyFreeExactlyWhenLast(hash: HashFn, rows: Rows, m: nat, last: Option<Entry>, n: nat)
    requires MerchantChain(hash, rows, m) && Gapless(rows, m, n) && ReadIn(rows, m, last)
    ensures var next := if last.None? then 1 else last.value.fields.seqNo + 1;
      && (IsLast(rows, m, last) <==> Key(m, next) !in rows)
      && (IsLast(rows, m, last) <==> next == n + 1)
  {
    if last.None? {
      if n > 0 { assert Key(m, 1) in rows; }
    } else {
      var k := last.value.fields.seqNo;
      assert Linked(hash, rows, m, k);
      assert 1 <= k <= n;
      if k < n { assert Key(m, k + 1) in rows; }
    }
  }

  lemma AppendKeepsLinks(hash: HashFn, rows: Rows, m: nat, last: Option<Entry>, b: Body, ts: string, k: nat)
    requires MerchantChain(hash, rows, m) && IsLast(rows, m, last)
    requires var e := NextEntry(hash, last, b, ts); Key(m, k) in rows[Key(m, e.fields.seqNo) := e]
    ensures var e := NextEntry(hash, last, b, ts); Linked(hash, rows[Key(m, e.fields.seqNo) := e], m, k)
  {
    var n: nat :| Gapless(rows, m, n);
    KeyFreeExactlyWhenLast(hash, rows, m, last, n);
    if k <= n {
      assert Linked(hash, rows, m, k);
    } else if n > 0 {
      assert Key(m, n) in rows;
    }
  }

  /** A row computed from a read that is still last extends the ledger by one. */
  lemma AppendKeepsChain(hash: HashFn, rows: Rows, m: nat, last: Option<Entry>, b: Body, ts: string)
    requires ChainRows(hash, rows) && IsLast(rows, m, last)
    ensures var e := NextEntry(hash, last, b, ts);
      var key := Key(m, e.fields.seqNo);
      && key !in rows && ChainRows(hash, rows[key := e])
      && forall n: nat | Gapless(rows, m, n) :: n + 1 == e.fields.seqNo && Gapless(rows[key := e], m, n + 1)
  {
    var e := NextEntry(hash, last, b, ts);
    var key := Key(m, e.fields.seqNo);
    var rows' := rows[key := e];
    assert MerchantChain(hash, rows, m);
    forall n: nat | Gapless(rows, m, n) ensures n + 1 == e.fields.seqNo && Gapless(rows', m, n + 1) {
      KeyFreeExactlyWhenLast(hash, rows, m, last, n);
    }
    forall k: nat | Key(m, k) in rows' ensures Linked(hash, rows', m, k) {
      AppendKeepsLinks(hash, rows, m, last, b, ts, k);
    }
    forall m': nat ensures MerchantChain(hash, rows', m') {
      if m' != m {
        assert MerchantChain(hash, rows, m') && Agree(rows, rows', m');
        AgreeingChain(hash, rows, rows', m');
      }
    }
  }

  lemma EmptyIsChained(hash: HashFn)
    ensures ChainRows(hash, map[])
  {
    var rows: Rows := map[];
    forall m: nat ensures MerchantChain(hash, rows, m) {
      assert Gapless(rows, m, 0);
    }
  }

  // ---- One writer: the class behind AuditLedgerService.record_event ----

  class Ledger {
    const hash: HashFn
    var rows: Rows

    ghost predicate Valid()
      reads this
    {
      ChainRows(hash, rows)
    }

    constructor (hash: HashFn)
      ensures Valid() && this.hash == hash && rows == map[]
    {
      this.hash := hash;
      this.rows := map[];
      new;
      EmptyIsChained(hash);
    }

    method LastEvent(merchant: nat) returns (last: Option<Entry>)
      requires Valid()
      ensures IsLast(rows, merchant, last)
    {
      assert MerchantChain(hash, rows, merchant);
      ghost var n: nat :| Gapless(rows, merchant, n);
      if k0 :| k0 in rows.Keys && k0.merchant == merchant {
        assert k0 == Key(merchant, k0.seqNo);
        assert Key(merchant, n) in rows.Keys;
        forall k | k in rows.Keys && k.merchant == merchant ensures k.seqNo <= n {
          assert k == Key(merchant, k.seqNo);
        }
        var k :| k in rows.Keys && k.merchant == merchant
                 && forall k' | k' in rows.Keys && k'.merchant == merchant :: k'.seqNo <= k.seqNo;
        assert k == Key(merchant, k.seqNo) && Linked(hash, rows, merchant, k.seqNo);
        forall j: nat | Key(merchant, j) in rows ensures j <= k.seqNo {
          assert Key(merchant, j) in rows.Keys;
        }
        last := Some(rows[k]);
      } else {
        forall j: nat ensures Key(merchant, j) !in rows {
          assert Key(merchant, j) in rows ==> Key(merchant, j) in rows.Keys;
        }
        last := None;
      }
    }

    /** Appends one event: the merchant's ledger grows by exactly that event, with everything the call was given in
        its own column, and stays a chain from genesis. */
    method RecordEvent(merchant: nat, body: Body, timestamp: string) returns (entry: Entry)
      requires Valid()
      modifies this
      ensures Valid()
      ensures exists last :: IsLast(old(rows), merchant, last) && entry == NextEntry(hash, last, body, timestamp)
      ensures Carries(entry, body, timestamp) && entry.hash == hash(Preimage(entry.fields))
      ensures Key(merchant, entry.fields.seqNo) !in old(rows)
      ensures rows == old(rows)[Key(merchant, entry.fields.seqNo) := entry]
      ensures forall n: nat | Gapless(old(rows), merchant, n) ::
        Gapless(rows, merchant, n + 1)
        && ChainOf(rows, merchant, n + 1) == ChainOf(old(rows), merchant, n) + [entry]
    {
      var last := LastEvent(merchant);
      entry := NextEntry(hash, last, body, timestamp);
      AppendKeepsChain(hash, rows, merchant, last, body, timestamp);
      rows := rows[Key(merchant, entry.fields.seqNo) := entry];
    }
  }

  // ---- Many writers: transactions whose reads and inserts interleave ----

  /** One record_event call that got as far as its insert. */
  datatype Write = Write(merchant: nat, body: Body, timestamp: string)

  /** An open transaction: the row it read last, and the rows it has inserted but not committed. `writes` is a history
      variable: the calls behind those rows, in order. */
  datatype Txn = Txn(merchant: nat, read: Option<Option<Entry>>, pending: Rows, writes: seq<Write>)

  /** `log` is a history variable: the committed calls in commit order. */
  datatype System = System(rows: Rows, txns: map<nat, Txn>, log: seq<Write>)

  datatype Act =
    | Read(w: nat, merchant: nat, last: Option<Entry>)
    | Insert(w: nat, body: Body, timestamp: string)
    | Commit(w: nat)
    | Rollback(w: nat)

  const EMPTY := System(map[], map[], [])

  /** What a transaction sees: committed rows and its own. */
  function Visible(s: System, w: nat): Rows {
    if w in s.txns then s.rows + s.txns[w].pending else s.rows
  }

  /** Another open transaction holds `key` uncommitted, so inserting it must wait. */
  predicate HeldByOther(s: System, w: nat, key: Key) {
    exists v | v in s.txns :: v != w && key in s.txns[v].pending
  }

  /** One step of one writer; a step that is not enabled, or that must wait, changes nothing. */
  ghost function Step(hash: HashFn, s: System, a: Act): System {
    match a
    case Read(w, m, last) =>
      if (w in s.txns && s.txns[w].merchant != m) || !IsLast(Visible(s, w), m, last) then s
      else if w in s.txns then s.(txns := s.txns[w := s.txns[w].(read := Some(last))])
      else s.(txns := s.txns[w := Txn(m, Some(last), map[], [])])
    case Insert(w, body, ts) =>
      if w !in s.txns || s.txns[w].read.None? then s
      else
        var t := s.txns[w];
        var e := NextEntry(hash, t.read.value, body, ts);
        var key := Key(t.merchant, e.fields.seqNo);
        if key in Visible(s, w) then s.(txns := s.txns - {w})
        else if HeldByOther(s, w, key) then s
        else
          s.(txns := s.txns[w := t.(pending := t.pending[key := e],
            writes := t.writes + [Write(t.merchant, body, ts)])])
    case Commit(w) =>
      if w !in s.txns then s
      else System(s.rows + s.txns[w].pending, s.txns - {w}, s.log + s.txns[w].writes)
    case Rollback(w) =>
      s.(txns := s.txns - {w})
  }

  ghost function Run(hash: HashFn, s: System, acts: seq<Act>): System
    decreases |acts|
  {
    if acts == [] then s else Run(hash, Step(hash, s, acts[0]), acts[1..])
  }

  /** A transaction extends the committed ledger by a chain of its own. */
  ghost predicate TxnOk(hash: HashFn, rows: Rows, t: Txn) {
    && (forall key | key in t.pending :: key.merchant == t.merchant && key !in rows)
    && ChainRows(hash, rows + t.pending)
    && (t.read.Some? ==> ReadIn(rows + t.pending, t.merchant, t.read.value))
  }

  predicate Disjoint(p: Rows, q: Rows) {
    forall key | key in p :: key !in q
  }

  ghost predicate Inv(hash: HashFn, s: System) {
    && ChainRows(hash, s.rows)
    && (forall w | w in s.txns :: TxnOk(hash, s.rows, s.txns[w]))
    && (forall v, w | v in s.txns && w in s.txns && v != w :: Disjoint(s.txns[v].pending, s.txns[w].pending))
  }

  lemma FirstPending(hash: HashFn, rows: Rows, t: Txn, n: nat)
    requires TxnOk(hash, rows, t) && t.pending != map[] && Gapless(rows, t.merchant, n)
    ensures Key(t.merchant, n + 1) in t.pending
  {
    var key :| key in t.pending;
    assert MerchantChain(hash, rows + t.pending, t.merchant);
    var k: nat :| Gapless(rows + t.pending, t.merchant, k);
    assert Key(t.merchant, key.seqNo) == key;
    assert 1 <= key.seqNo <= k && key.seqNo > n;
    assert Key(t.merchant, n + 1) in rows + t.pending;
  }

  /** Two open transactions never both hold rows of one merchant. */
  lemma OneAppenderPerMerchant(hash: HashFn, s: System, v: nat, w: nat)
    requires Inv(hash, s) && v in s.txns && w in s.txns && v != w
    requires s.txns[v].merchant == s.txns[w].merchant
    ensures s.txns[v].pending == map[] || s.txns[w].pending == map[]
  {
    assert Disjoint(s.txns[v].pending, s.txns[w].pending);
    if s.txns[v].pending != map[] && s.txns[w].pending != map[] {
      var m := s.txns[v].merchant;
      assert MerchantChain(hash, s.rows, m);
      var n: nat :| Gapless(s.rows, m, n);
      FirstPending(hash, s.rows, s.txns[v], n);
      FirstPending(hash, s.rows, s.txns[w], n);
    }
  }

  /** An insert aborts its transaction exactly when its read is no longer the last row; committed rows stay. */
  lemma StaleInsertAborts(hash: HashFn, s: System, w: nat, body: Body, ts: string)
    requires Inv(hash, s) && w in s.txns && s.txns[w].read.Some?
    ensures var t := s.txns[w];
      var s' := Step(hash, s, Insert(w, body, ts));
      && (w !in s'.txns <==> !IsLast(Visible(s, w), t.merchant, t.read.value))
      && s'.rows == s.rows
  {
    var t := s.txns[w];
    var vis := Visible(s, w);
    assert MerchantChain(hash, vis, t.merchant);
    var n: nat :| Gapless(vis, t.merchant, n);
    KeyFreeExactlyWhenLast(hash, vis, t.merchant, t.read.value, n);
  }

  lemma InsertKeepsInv(hash: HashFn, s: System, w: nat, body: Body, ts: string)
    requires Inv(hash, s)
    ensures Inv(hash, Step(hash, s, Insert(w, body, ts)))
  {
    if w in s.txns && s.txns[w].read.Some? {
      var t := s.txns[w];
      var e := NextEntry(hash, t.read.value, body, ts);
      var key := Key(t.merchant, e.fields.seqNo);
      StaleInsertAborts(hash, s, w, body, ts);
      if key !in Visible(s, w) && !HeldByOther(s, w, key) {
        var t' := t.(pending := t.pending[key := e], writes := t.writes + [Write(t.merchant, body, ts)]);
        InsertedIsOk(hash, s, w, body, ts, t');
        assert Step(hash, s, Insert(w, body, ts)) == s.(txns := s.txns[w := t']);
      }
    }
  }

  lemma InsertedIsOk(hash: HashFn, s: System, w: nat, body: Body, ts: string, t': Txn)
    requires Inv(hash, s) && w in s.txns && s.txns[w].read.Some?
    requires IsLast(Visible(s, w), s.txns[w].merchant, s.txns[w].read.value)
    requires var t := s.txns[w];
      var e := NextEntry(hash, t.read.value, body, ts);
      && t'.merchant == t.merchant && t'.read == t.read
      && t'.pending == t.pending[Key(t.merchant, e.fields.seqNo) := e]
    ensures TxnOk(hash, s.rows, t')
  {
    var t := s.txns[w];
    var e := NextEntry(hash, t.read.value, body, ts);
    AppendKeepsChain(hash, Visible(s, w), t.merchant, t.read.value, body, ts);
    assert s.rows + t'.pending == Visible(s, w)[Key(t.merchant, e.fields.seqNo) := e];
  }

  /** Merging two ledgers that extend the same rows, at most one of them for each merchant. */
  lemma MergeChains(hash: HashFn, rows: Rows, p: Rows, q: Rows, mp: nat, mq: nat)
    requires ChainRows(hash, rows + p) && ChainRows(hash, rows + q)
    requires forall key | key in p :: key.merchant == mp && key !in rows
    requires forall key | key in q :: key.merchant == mq && key !in rows
    requires mp != mq || p == map[] || q == map[]
    ensures ChainRows(hash, rows + p + q)
  {
    forall m: nat ensures MerchantChain(hash, rows + p + q, m) {
      if m == mp && p != map[] {
        assert MerchantChain(hash, rows + p, m) && Agree(rows + p, rows + p + q, m);
        AgreeingChain(hash, rows + p, rows + p + q, m);
      } else {
        assert MerchantChain(hash, rows + q, m) && Agree(rows + q, rows + p + q, m);
        AgreeingChain(hash, rows + q, rows + p + q, m);
      }
    }
  }

  /** Another transaction's commit leaves an open transaction in order. */
  lemma CommitKeepsTxn(hash: HashFn, rows: Rows, p: Rows, mp: nat, t: Txn)
    requires ChainRows(hash, rows + p) && TxnOk(hash, rows, t) && Disjoint(p, t.pending)
    requires forall key | key in p :: key.merchant == mp && key !in rows
    requires mp != t.merchant || p == map[] || t.pending == map[]
    ensures TxnOk(hash, rows + p, t)
  {
    MergeChains(hash, rows, p, t.pending, mp, t.merchant);
  }

  lemma CommitKeepsInv(hash: HashFn, s: System, w: nat)
    requires Inv(hash, s) && w in s.txns
    ensures Inv(hash, Step(hash, s, Commit(w)))
  {
    var s' := Step(hash, s, Commit(w));
    forall v | v in s'.txns ensures TxnOk(hash, s'.rows, s'.txns[v]) {
      if s.txns[v].merchant == s.txns[w].merchant {
        OneAppenderPerMerchant(hash, s, v, w);
      }
      assert Disjoint(s.txns[w].pending, s.txns[v].pending);
      CommitKeepsTxn(hash, s.rows, s.txns[w].pending, s.txns[w].merchant, s.txns[v]);
    }
  }

  lemma ReadKeepsInv(hash: HashFn, s: System, w: nat, m: nat, last: Option<Entry>)
    requires Inv(hash, s)
    ensures Inv(hash, Step(hash, s, Read(w, m, last)))
  {
    var s' := Step(hash, s, Read(w, m, last));
    if s' != s {
      assert s.rows + map[] == s.rows;
      assert TxnOk(hash, s.rows, s'.txns[w]);
    }
  }

  lemma StepKeepsInv(hash: HashFn, s: System, a: Act)
    requires Inv(hash, s)
    ensures Inv(hash, Step(hash, s, a))
  {
    match a {
      case Read(w, m, last) => ReadKeepsInv(hash, s, w, m, last);
      case Insert(w, body, ts) => InsertKeepsInv(hash, s, w, body, ts);
      case Commit(w) => if w in s.txns { CommitKeepsInv(hash, s, w); }
      case Rollback(w) =>
    }
  }

  /** Committed rows are never removed or replaced. */
  lemma StepKeepsRows(hash: HashFn, s: System, a: Act)
    requires Inv(hash, s)
    ensures forall key | key in s.rows :: key in Step(hash, s, a).rows && Step(hash, s, a).rows[key] == s.rows[key]
  {
    if a.Commit? && a.w in s.txns {
      assert TxnOk(hash, s.rows, s.txns[a.w]);
    }
  }

  /** Any number of writers, any interleaving: the committed ledger stays chained, and no committed row ever changes. */
  lemma {:induction false} EveryRunKeepsLedgers(hash: HashFn, s: System, acts: seq<Act>)
    requires Inv(hash, s)
    ensures Inv(hash, Run(hash, s, acts))
    ensures forall key | key in s.rows ::
      key in Run(hash, s, acts).rows && Run(hash, s, acts).rows[key] == s.rows[key]
    decreases |acts|
  {
    if acts != [] {
      StepKeepsInv(hash, s, acts[0]);
      StepKeepsRows(hash, s, acts[0]);
      EveryRunKeepsLedgers(hash, Step(hash, s, acts[0]), acts[1..]);
    }
  }

  /** Merchant `m` owns rows 1..n and they form a ledger linked from genesis. */
  ghost predicate OwnsLedger(hash: HashFn, rows: Rows, m: nat, n: nat) {
    Gapless(rows, m, n) && WellFormed(hash, ChainOf(rows, m, n))
  }

  /** From the empty table, every run leaves each merchant a ledger 1..n linked from genesis. */
  lemma LedgersAreGaplessChains(hash: HashFn, acts: seq<Act>, m: nat)
    ensures exists n: nat :: OwnsLedger(hash, Run(hash, EMPTY, acts).rows, m, n)
  {
    EmptyIsChained(hash);
    EveryRunKeepsLedgers(hash, EMPTY, acts);
    var rows := Run(hash, EMPTY, acts).rows;
    assert MerchantChain(hash, rows, m);
    var n: nat :| Gapless(rows, m, n);
    ChainRowsWellFormed(hash, rows, m, n);
    assert OwnsLedger(hash, rows, m, n);
  }

  // ---- The committed ledger is a serial one ----

  function LastOf(chain: seq<Entry>): Option<Entry> {
    if chain == [] then None else Some(chain[|chain| - 1])
  }

  /** The merchant's chain when the calls are made one after the other. */
  function Serial(hash: HashFn, log: seq<Write>, m: nat): seq<Entry> {
    if log == [] then []
    else
      var n := |log| - 1;
      var before := Serial(hash, log[..n], m);
      if log[n].merchant != m then before
      else before + [NextEntry(hash, LastOf(before), log[n].body, log[n].timestamp)]
  }

  /** The merchant's rows are exactly this chain. */
  ghost predicate Holds(rows: Rows, m: nat, chain: seq<Entry>) {
    && Gapless(rows, m, |chain|)
    && forall i | 0 <= i < |chain| :: Key(m, i + 1) in rows && rows[Key(m, i + 1)] == chain[i]
  }

  ghost predicate Serialised(hash: HashFn, rows: Rows, log: seq<Write>) {
    forall m: nat :: Holds(rows, m, Serial(hash, log, m))
  }

  /** Every transaction sees the committed calls followed by its own, made one after the other. */
  ghost predicate TxnSerial(hash: HashFn, s: System, w: nat)
    requires w in s.txns
  {
    && Serialised(hash, s.rows + s.txns[w].pending, s.log + s.txns[w].writes)
    && forall i | 0 <= i < |s.txns[w].writes| :: s.txns[w].writes[i].merchant == s.txns[w].merchant
  }

  ghost predicate SerialInv(hash: HashFn, s: System) {
    && Inv(hash, s) && Serialised(hash, s.rows, s.log)
    && forall w | w in s.txns :: TxnSerial(hash, s, w)
  }

  /** Calls for other merchants leave a chain alone. */
  lemma {:induction false} SerialSkips(hash: HashFn, log: seq<Write>, more: seq<Write>, m: nat)
    requires forall i | 0 <= i < |more| :: more[i].merchant != m
    ensures Serial(hash, log + more, m) == Serial(hash, log, m)
  {
    if more == [] {
      assert log + more == log;
    } else {
      assert (log + more)[..|log + more| - 1] == log + more[..|more| - 1];
      SerialSkips(hash, log, more[..|more| - 1], m);
    }
  }

  lemma SerialGrows(hash: HashFn, log: seq<Write>, x: Write, m: nat)
    ensures Serial(hash, log + [x], m) ==
      if x.merchant != m then Serial(hash, log, m)
      else Serial(hash, log, m) + [NextEntry(hash, LastOf(Serial(hash, log, m)), x.body, x.timestamp)]
  {
    assert (log + [x])[..|log|] == log;
  }

  /** The last entry of the chain a table holds is its last row. */
  lemma LastEntryIsLast(hash: HashFn, rows: Rows, m: nat, chain: seq<Entry>)
    requires MerchantChain(hash, rows, m) && Holds(rows, m, chain)
    ensures IsLast(rows, m, LastOf(chain))
  {
    if chain != [] {
      assert Key(m, |chain|) in rows && Linked(hash, rows, m, |chain|);
    }
  }

  lemma OneLastRow(rows: Rows, m: nat, a: Option<Entry>, b: Option<Entry>)
    requires IsLast(rows, m, a) && IsLast(rows, m, b)
    ensures a == b
  {
    assert a.Some? ==> Key(m, a.value.fields.seqNo) in rows;
    assert b.Some? ==> Key(m, b.value.fields.seqNo) in rows;
  }

  lemma AgreeingHolds(a: Rows, b: Rows, m: nat, chain: seq<Entry>)
    requires Agree(a, b, m) && Holds(a, m, chain)
    ensures Holds(b, m, chain)
  {
  }

  lemma OneMoreHeld(rows: Rows, m: nat, chain: seq<Entry>, e: Entry)
    requires Holds(rows, m, chain) && e.fields.seqNo == |chain| + 1
    ensures Holds(rows[Key(m, |chain| + 1) := e], m, chain + [e])
  {
    assert Gapless(rows[Key(m, |chain| + 1) := e], m, |chain| + 1);
  }

  lemma EntryAppended(
    hash: HashFn, rows: Rows, log: seq<Write>, m: nat, last: Option<Entry>, body: Body, ts: string, m': nat)
    requires ChainRows(hash, rows) && Serialised(hash, rows, log) && IsLast(rows, m, last)
    ensures var e := NextEntry(hash, last, body, ts);
      Holds(rows[Key(m, e.fields.seqNo) := e], m', Serial(hash, log + [Write(m, body, ts)], m'))
  {
    var e := NextEntry(hash, last, body, ts);
    var rows' := rows[Key(m, e.fields.seqNo) := e];
    var chain := Serial(hash, log, m');
    SerialGrows(hash, log, Write(m, body, ts), m');
    assert Holds(rows, m', chain) && MerchantChain(hash, rows, m');
    if m' == m {
      LastEntryIsLast(hash, rows, m, chain);
      OneLastRow(rows, m, last, LastOf(chain));
      KeyFreeExactlyWhenLast(hash, rows, m, last, |chain|);
      OneMoreHeld(rows, m, chain, e);
    } else {
      AgreeingHolds(rows, rows', m', chain);
    }
  }

  /** The transaction after a successful insert. */
  function Inserted(hash: HashFn, t: Txn, last: Option<Entry>, body: Body, ts: string): Txn {
    var e := NextEntry(hash, last, body, ts);
    t.(pending := t.pending[Key(t.merchant, e.fields.seqNo) := e], writes := t.writes + [Write(t.merchant, body, ts)])
  }

  lemma InsertedIsSerial(hash: HashFn, s: System, w: nat, body: Body, ts: string)
    requires SerialInv(hash, s) && w in s.txns && s.txns[w].read.Some?
    requires IsLast(Visible(s, w), s.txns[w].merchant, s.txns[w].read.value)
    ensures var t' := Inserted(hash, s.txns[w], s.txns[w].read.value, body, ts);
      Serialised(hash, s.rows + t'.pending, s.log + t'.writes)
  {
    var t := s.txns[w];
    var t' := Inserted(hash, t, t.read.value, body, ts);
    var e := NextEntry(hash, t.read.value, body, ts);
    assert TxnSerial(hash, s, w) && TxnOk(hash, s.rows, t);
    assert s.rows + t'.pending == Visible(s, w)[Key(t.merchant, e.fields.seqNo) := e];
    assert s.log + t'.writes == s.log + t.writes + [Write(t.merchant, body, ts)];
    forall m: nat ensures Holds(s.rows + t'.pending, m, Serial(hash, s.log + t'.writes, m)) {
      EntryAppended(hash, Visible(s, w), s.log + t.writes, t.merchant, t.read.value, body, ts, m);
    }
  }

  /** An insert drops its transaction, waits, or extends it by one row and one call. */
  lemma InsertOutcomes(hash: HashFn, s: System, w: nat, body: Body, ts: string)
    requires Inv(hash, s)
    ensures var s' := Step(hash, s, Insert(w, body, ts));
      || s' == s || s' == s.(txns := s.txns - {w})
      || (w in s.txns && s.txns[w].read.Some? && IsLast(Visible(s, w), s.txns[w].merchant, s.txns[w].read.value)
          && s' == s.(txns := s.txns[w := Inserted(hash, s.txns[w], s.txns[w].read.value, body, ts)]))
  {
    if w in s.txns && s.txns[w].read.Some? { StaleInsertAborts(hash, s, w, body, ts); }
  }

  lemma InsertKeepsSerial(hash: HashFn, s: System, w: nat, body: Body, ts: string)
    requires SerialInv(hash, s)
    ensures SerialInv(hash, Step(hash, s, Insert(w, body, ts)))
  {
    InsertKeepsInv(hash, s, w, body, ts);
    InsertOutcomes(hash, s, w, body, ts);
    var s' := Step(hash, s, Insert(w, body, ts));
    forall v | v in s'.txns ensures TxnSerial(hash, s', v) {
      assert TxnSerial(hash, s, v);
      if s'.txns[v] != s.txns[v] { InsertedIsSerial(hash, s, w, body, ts); }
    }
  }

  /** Committed calls of one merchant do not disturb an open transaction of another. */
  lemma OtherMerchantsSerial(hash: HashFn, rows: Rows, log: seq<Write>, p: Txn, q: Txn, m: nat)
    requires Serialised(hash, rows + p.pending, log + p.writes) && Serialised(hash, rows + q.pending, log + q.writes)
    requires forall i | 0 <= i < |p.writes| :: p.writes[i].merchant == p.merchant
    requires forall i | 0 <= i < |q.writes| :: q.writes[i].merchant == q.merchant
    requires forall key | key in p.pending :: key.merchant == p.merchant && key !in rows
    requires forall key | key in q.pending :: key.merchant == q.merchant && key !in rows
    requires p.merchant != q.merchant || (p.pending == map[] && p.writes == [])
      || (q.pending == map[] && q.writes == [])
    ensures Holds(rows + p.pending + q.pending, m, Serial(hash, log + p.writes + q.writes, m))
  {
    if m != q.merchant || (q.pending == map[] && q.writes == []) {
      SerialSkips(hash, log + p.writes, q.writes, m);
      assert Holds(rows + p.pending, m, Serial(hash, log + p.writes, m));
      AgreeingHolds(rows + p.pending, rows + p.pending + q.pending, m, Serial(hash, log + p.writes, m));
    } else {
      SkipMiddle(hash, log, p.writes, q.writes, m);
      assert Holds(rows + q.pending, m, Serial(hash, log + q.writes, m));
      AgreeingHolds(rows + q.pending, rows + p.pending + q.pending, m, Serial(hash, log + q.writes, m));
    }
  }

  lemma {:induction false} SkipMiddle(hash: HashFn, log: seq<Write>, middle: seq<Write>, more: seq<Write>, m: nat)
    requires forall i | 0 <= i < |middle| :: middle[i].merchant != m
    ensures Serial(hash, log + middle + more, m) == Serial(hash, log + more, m)
  {
    if more == [] {
      assert log + middle + more == log + middle && log + more == log;
      SerialSkips(hash, log, middle, m);
    } else {
      var n := |more| - 1;
      assert (log + middle + more)[..|log + middle + more| - 1] == log + middle + more[..n];
      assert (log + more)[..|log + more| - 1] == log + more[..n];
      SkipMiddle(hash, log, middle, more[..n], m);
    }
  }

  lemma {:induction false} SerialLength(hash: HashFn, log: seq<Write>, more: seq<Write>, m: nat)
    requires forall i | 0 <= i < |more| :: more[i].merchant == m
    ensures |Serial(hash, log + more, m)| == |Serial(hash, log, m)| + |more|
  {
    if more == [] {
      assert log + more == log;
    } else {
      assert (log + more)[..|log + more| - 1] == log + more[..|more| - 1];
      SerialLength(hash, log, more[..|more| - 1], m);
    }
  }

  /** A transaction without pending rows has made no calls. */
  lemma NothingPendingNothingWritten(hash: HashFn, s: System, w: nat)
    requires SerialInv(hash, s) && w in s.txns && s.txns[w].pending == map[]
    ensures s.txns[w].writes == []
  {
    var t := s.txns[w];
    assert TxnSerial(hash, s, w) && s.rows + t.pending == s.rows;
    SerialLength(hash, s.log, t.writes, t.merchant);
    var short, long := Serial(hash, s.log, t.merchant), Serial(hash, s.log + t.writes, t.merchant);
    assert Holds(s.rows, t.merchant, short) && Holds(s.rows, t.merchant, long);
    assert |long| > 0 ==> Key(t.merchant, |long|) in s.rows;
  }

  lemma CommitKeepsSerial(hash: HashFn, s: System, w: nat)
    requires SerialInv(hash, s) && w in s.txns
    ensures SerialInv(hash, Step(hash, s, Commit(w)))
  {
    CommitKeepsInv(hash, s, w);
    var s' := Step(hash, s, Commit(w));
    assert TxnSerial(hash, s, w) && TxnOk(hash, s.rows, s.txns[w]);
    forall v | v in s'.txns ensures TxnSerial(hash, s', v) {
      assert TxnSerial(hash, s, v) && TxnOk(hash, s.rows, s.txns[v]);
      if s.txns[v].merchant == s.txns[w].merchant {
        OneAppenderPerMerchant(hash, s, v, w);
        if s.txns[v].pending == map[] { NothingPendingNothingWritten(hash, s, v); }
        if s.txns[w].pending == map[] { NothingPendingNothingWritten(hash, s, w); }
      }
      forall m: nat ensures Holds(s'.rows + s'.txns[v].pending, m, Serial(hash, s'.log + s'.txns[v].writes, m)) {
        OtherMerchantsSerial(hash, s.rows, s.log, s.txns[w], s.txns[v], m);
      }
    }
  }

  lemma ReadKeepsSerial(hash: HashFn, s: System, w: nat, m: nat, last: Option<Entry>)
    requires SerialInv(hash, s)
    ensures SerialInv(hash, Step(hash, s, Read(w, m, last)))
  {
    ReadKeepsInv(hash, s, w, m, last);
    var s' := Step(hash, s, Read(w, m, last));
    forall v | v in s'.txns ensures TxnSerial(hash, s', v) {
      if v in s.txns {
        assert TxnSerial(hash, s, v);
      } else {
        assert s.rows + map[] == s.rows && s.log + [] == s.log;
      }
    }
  }

  lemma StepKeepsSerial(hash: HashFn, s: System, a: Act)
    requires SerialInv(hash, s)
    ensures SerialInv(hash, Step(hash, s, a))
  {
    match a {
      case Read(w, m, last) => ReadKeepsSerial(hash, s, w, m, last);
      case Insert(w, body, ts) => InsertKeepsSerial(hash, s, w, body, ts);
      case Commit(w) => if w in s.txns { CommitKeepsSerial(hash, s, w); }
      case Rollback(w) =>
        StepKeepsInv(hash, s, a);
        forall v | v in Step(hash, s, a).txns ensures TxnSerial(hash, Step(hash, s, a), v) {
          assert TxnSerial(hash, s, v);
        }
    }
  }

  lemma {:induction false} RunKeepsSerial(hash: HashFn, s: System, acts: seq<Act>)
    requires SerialInv(hash, s)
    ensures SerialInv(hash, Run(hash, s, acts))
    decreases |acts|
  {
    if acts != [] {
      StepKeepsSerial(hash, s, acts[0]);
      RunKeepsSerial(hash, Step(hash, s, acts[0]), acts[1..]);
    }
  }

  lemma EmptyIsSerial(hash: HashFn)
    ensures SerialInv(hash, EMPTY)
  {
    EmptyIsChained(hash);
    forall m: nat ensures Holds(EMPTY.rows, m, Serial(hash, EMPTY.log, m)) {
    }
  }

  /** Serialisation: however the writers interleave, each merchant's committed ledger is the one that its committed
      calls, made one after the other in commit order, would have built. */
  lemma EveryRunIsSerial(hash: HashFn, acts: seq<Act>, m: nat)
    ensures var s := Run(hash, EMPTY, acts);
      && Gapless(s.rows, m, |Serial(hash, s.log, m)|)
      && ChainOf(s.rows, m, |Serial(hash, s.log, m)|) == Serial(hash, s.log, m)
  {
    EmptyIsSerial(hash);
    RunKeepsSerial(hash, EMPTY, acts);
    var s := Run(hash, EMPTY, acts);
    assert Holds(s.rows, m, Serial(hash, s.log, m));
  }

  // ---- What the committed rows hold ----

  /** The calls for one merchant. */
  function Own(log: seq<Write>, m: nat): seq<Write> {
    if log == [] then []
    else
      var n := |log| - 1;
      Own(log[..n], m) + if log[n].merchant == m then [log[n]] else []
  }

  lemma {:induction false} SerialCarries(hash: HashFn, log: seq<Write>, m: nat)
    ensures var chain, own := Serial(hash, log, m), Own(log, m);
      |chain| == |own| && forall i | 0 <= i < |own| :: Carries(chain[i], own[i].body, own[i].timestamp)
  {
    if log != [] { SerialCarries(hash, log[..|log| - 1], m); }
  }

  /** However the writers interleave, a merchant has one row for each of its committed calls, and row `i` holds the
      body and the timestamp of call `i`, column by column. */
  lemma RowsCarryTheirCalls(hash: HashFn, acts: seq<Act>, m: nat)
    ensures var s := Run(hash, EMPTY, acts);
      var own := Own(s.log, m);
      && Gapless(s.rows, m, |own|)
      && forall i | 0 <= i < |own| ::
           Key(m, i + 1) in s.rows && Carries(s.rows[Key(m, i + 1)], own[i].body, own[i].timestamp)
  {
    var s := Run(hash, EMPTY, acts);
    EveryRunIsSerial(hash, acts, m);
    SerialCarries(hash, s.log, m);
    assert ChainOf(s.rows, m, |Own(s.log, m)|) == Serial(hash, s.log, m);
  }
}
