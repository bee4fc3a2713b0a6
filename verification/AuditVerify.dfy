/** The chain verifier (backend/apps/api/routes/v1/audit.py) and what its verdict is worth. */
module AuditVerify {
  import opened Domain
  import opened AuditHash
  import opened AuditLedger

  const GENESIS_WORD: string := "GENESIS"

  /** The verifier's test of event `i`: its predecessor's stored hash, or a genesis marker on number 1. */
  predicate LinkAccepted(events: seq<Entry>, i: nat)
    requires i < |events|
  {
    var e := events[i];
    || e.fields.prevHash == (if i == 0 then GENESIS else events[i - 1].hash)
    || (e.fields.seqNo == 1 && e.fields.prevHash in {GENESIS, GENESIS_WORD})
  }

  predicate AllAccepted(events: seq<Entry>) {
    forall i | 0 <= i < |events| :: LinkAccepted(events, i)
  }

  /** Event `i` is the first one whose link is rejected. */
  predicate FirstBreak(events: seq<Entry>, i: nat) {
    i < |events| && !LinkAccepted(events, i) && forall j | 0 <= j < i :: LinkAccepted(events, j)
  }

  /** The endpoint's loop: it stops at the first rejected link and reports that event's number. */
  method VerifyChain(events: seq<Entry>) returns (isValid: bool, brokenAt: Option<nat>)
    ensures isValid <==> AllAccepted(events)
    ensures isValid ==> brokenAt.None?
    ensures forall i: nat | FirstBreak(events, i) :: !isValid && brokenAt == Some(events[i].fields.seqNo)
  {
    isValid, brokenAt := true, None;
    var expected := GENESIS;
    for n := 0 to |events|
      invariant isValid && brokenAt.None?
      invariant expected == if n == 0 then GENESIS else events[n - 1].hash
      invariant forall j | 0 <= j < n :: LinkAccepted(events, j)
    {
      var e := events[n];
      if e.fields.prevHash != expected && e.fields.seqNo == 1 && e.fields.prevHash in {GENESIS, GENESIS_WORD} {
        expected := e.hash;
        continue;
      } else if e.fields.prevHash != expected {
        isValid, brokenAt := false, Some(e.fields.seqNo);
        assert FirstBreak(events, n);
        break;
      }
      expected := e.hash;
    }
  }

  /** A rejected ledger has a first break, so VerifyChain's verdict and report are determined. */
  lemma BreakExistsExactlyWhenRejected(events: seq<Entry>)
    ensures !AllAccepted(events) <==> exists i: nat :: FirstBreak(events, i)
  {
    if !AllAccepted(events) {
      var i: nat :| i < |events| && !LinkAccepted(events, i);
      SmallestBreak(events, i);
    }
  }

  lemma {:induction false} SmallestBreak(events: seq<Entry>, i: nat)
    requires i < |events| && !LinkAccepted(events, i)
    ensures exists j: nat :: FirstBreak(events, j)
  {
    if j: nat :| j < i && !LinkAccepted(events, j) {
      SmallestBreak(events, j);
    } else {
      assert FirstBreak(events, i);
    }
  }

  /** Every ledger the append protocol can build is accepted. */
  lemma WellFormedIsAccepted(hash: HashFn, events: seq<Entry>)
    requires WellFormed(hash, events)
    ensures AllAccepted(events)
  {
    forall i | 0 <= i < |events| ensures LinkAccepted(events, i) {
      assert InOrder(hash, events, i);
    }
  }

  /** The hash event `i` is checked against. */
  function ExpectedHash(events: seq<Entry>, i: nat): string
    requires i <= |events|
  {
    if i == 0 then GENESIS else events[i - 1].hash
  }

  /** Removing events i..j-1 (not a suffix): the first surviving event is reported exactly when the two
      hashes around the gap differ; otherwise the remainder is accepted. */
  lemma DeletionDetected(hash: HashFn, events: seq<Entry>, i: nat, j: nat)
    requires WellFormed(hash, events) && i < j < |events|
    ensures var rest := events[..i] + events[j..];
      if ExpectedHash(events, i) == ExpectedHash(events, j) then AllAccepted(rest)
      else FirstBreak(rest, i) && rest[i].fields.seqNo == j + 1
  {
    var rest := events[..i] + events[j..];
    assert InOrder(hash, events, j);
    forall k | 0 <= k < |rest| && k != i ensures LinkAccepted(rest, k) {
      assert InOrder(hash, events, if k < i then k else k - i + j);
    }
    assert rest[i] == events[j];
    assert ExpectedHash(rest, i) == ExpectedHash(events, i);
  }

  /** Truncation is invisible: every prefix of an accepted ledger is accepted. */
  lemma SuffixRemovalInvisible(events: seq<Entry>, n: nat)
    requires AllAccepted(events) && n <= |events|
    ensures AllAccepted(events[..n])
  {
    forall i | 0 <= i < n ensures LinkAccepted(events[..n], i) {
      assert LinkAccepted(events, i);
    }
  }

  /** The verifier never recomputes a hash: rewriting any event's content changes no verdict. */
  lemma ContentRewriteInvisible(
    events: seq<Entry>, k: nat, action: string, payload: string, actorId: string, ts: string)
    requires k < |events|
    ensures var f := events[k].fields.(action := action, payload := payload, actorId := actorId, timestamp := ts);
      var forged := events[k := events[k].(fields := f)];
      && (AllAccepted(forged) <==> AllAccepted(events))
      && forall i: nat :: FirstBreak(forged, i) <==> FirstBreak(events, i)
  {
    var f := events[k].fields.(action := action, payload := payload, actorId := actorId, timestamp := ts);
    var forged := events[k := events[k].(fields := f)];
    assert forall i | 0 <= i < |events| :: LinkAccepted(forged, i) <==> LinkAccepted(events, i);
  }

  /** Recomputing hashes as well as links decides well-formedness, for a ledger numbered 1..n. */
  lemma LinksPlusHashesSuffice(hash: HashFn, events: seq<Entry>)
    requires forall i | 0 <= i < |events| :: events[i].fields.seqNo == i + 1
    requires |events| > 0 ==> events[0].fields.prevHash != GENESIS_WORD
    ensures WellFormed(hash, events) <==>
      AllAccepted(events) && forall i | 0 <= i < |events| :: events[i].hash == hash(Preimage(events[i].fields))
  {
    if WellFormed(hash, events) {
      WellFormedIsAccepted(hash, events);
      forall i | 0 <= i < |events| ensures events[i].hash == hash(Preimage(events[i].fields)) {
        assert InOrder(hash, events, i);
      }
    } else if AllAccepted(events)
        && forall i | 0 <= i < |events| :: events[i].hash == hash(Preimage(events[i].fields)) {
      forall i | 0 <= i < |events| ensures InOrder(hash, events, i) {
        assert LinkAccepted(events, i);
      }
    }
  }

  // ---- What the last hash commits to ----

  /** Two different preimages of stored events hash alike. */
  ghost predicate Collision(hash: HashFn, a: seq<Entry>, b: seq<Entry>) {
    exists i, j | 0 <= i < |a| && 0 <= j < |b| ::
      Preimage(a[i].fields) != Preimage(b[j].fields) && hash(Preimage(a[i].fields)) == hash(Preimage(b[j].fields))
  }

  /** Some stored event hashes to the genesis marker. */
  ghost predicate ZeroHash(hash: HashFn, a: seq<Entry>) {
    exists i | 0 <= i < |a| :: hash(Preimage(a[i].fields)) == GENESIS
  }

  predicate AllClean(a: seq<Entry>) {
    forall i | 0 <= i < |a| :: Clean(a[i].fields)
  }

  /** The hash failed: a collision between stored events, or an event hashing to the genesis marker. */
  ghost predicate HashFailed(hash: HashFn, a: seq<Entry>, b: seq<Entry>) {
    Collision(hash, a, b) || ZeroHash(hash, a) || ZeroHash(hash, b)
  }

  lemma FailureInPrefix(hash: HashFn, a: seq<Entry>, b: seq<Entry>, m: nat, n: nat)
    requires m <= |a| && n <= |b| && HashFailed(hash, a[..m], b[..n])
    ensures HashFailed(hash, a, b)
  {
    if Collision(hash, a[..m], b[..n]) {
      var i, j :| 0 <= i < m && 0 <= j < n && Preimage(a[..m][i].fields) != Preimage(b[..n][j].fields)
        && hash(Preimage(a[..m][i].fields)) == hash(Preimage(b[..n][j].fields));
      assert a[..m][i] == a[i] && b[..n][j] == b[j];
    } else if ZeroHash(hash, a[..m]) {
      var i :| 0 <= i < m && hash(Preimage(a[..m][i].fields)) == GENESIS;
      assert a[..m][i] == a[i];
    } else {
      var i :| 0 <= i < n && hash(Preimage(b[..n][i].fields)) == GENESIS;
      assert b[..n][i] == b[i];
    }
  }

  lemma PrefixWellFormed(hash: HashFn, a: seq<Entry>, m: nat)
    requires WellFormed(hash, a) && AllClean(a) && m <= |a|
    ensures WellFormed(hash, a[..m]) && AllClean(a[..m])
  {
    forall i | 0 <= i < m ensures InOrder(hash, a[..m], i) {
      assert InOrder(hash, a, i);
    }
  }

  /** Equal last hashes mean equal histories: two well-formed clean ledgers that end in the same hash are
      identical, unless the hash failed on an event they store. */
  lemma {:induction false} LastHashCommitsToHistory(hash: HashFn, a: seq<Entry>, b: seq<Entry>)
    requires WellFormed(hash, a) && WellFormed(hash, b) && AllClean(a) && AllClean(b)
    requires ExpectedHash(a, |a|) == ExpectedHash(b, |b|)
    ensures a == b || HashFailed(hash, a, b)
    decreases |a|
  {
    var m, n := |a| - 1, |b| - 1;
    if a == [] || b == [] {
      if b != [] { assert InOrder(hash, b, n); }
      if a != [] { assert InOrder(hash, a, m); }
    } else {
      assert InOrder(hash, a, m) && InOrder(hash, b, n);
      if Preimage(a[m].fields) == Preimage(b[n].fields) {
        CleanPreimagesAgree(a[m].fields, b[n].fields);
        PrefixWellFormed(hash, a, m);
        PrefixWellFormed(hash, b, n);
        LastHashCommitsToHistory(hash, a[..m], b[..n]);
        if a[..m] == b[..n] {
          assert a == a[..m] + [a[m]] && b == b[..n] + [b[n]];
        } else {
          FailureInPrefix(hash, a, b, m, n);
        }
      }
    }
  }
}
