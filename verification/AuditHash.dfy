/** The hash preimage of an audit event (backend/packages/common/crypto.py, compute_audit_event_hash). */
module AuditHash {
  import opened Domain
  import opened Text

  const BAR := '|'
  const QUOTE := '"'
  const BACKSLASH := '\\'

  /** The hashed fields of an audit event; the payload is its canonical JSON text. */
  datatype Fields = Fields(
    seqNo: nat, prevHash: string, entityType: string, entityId: string, action: string,
    actorType: string, actorId: string, payload: string, timestamp: string)

  /** The fields before the actor id. */
  function Leading(f: Fields): (lead: seq<string>)
    ensures |lead| == 6
  {
    [Decimal(f.seqNo), f.prevHash, f.entityType, f.entityId, f.action, f.actorType]
  }

  /** Each part followed by a bar. */
  function JoinLeading(lead: seq<string>): string {
    if lead == [] then "" else lead[0] + [BAR] + JoinLeading(lead[1..])
  }

  function Preimage(f: Fields): string {
    JoinLeading(Leading(f)) + (f.actorId + [BAR] + f.payload + [BAR] + f.timestamp)
  }

  /** The nine parts in their order, with a bar between each two. */
  lemma PreimageLayout(f: Fields)
    ensures Preimage(f) ==
      Decimal(f.seqNo) + "|" + f.prevHash + "|" + f.entityType + "|" + f.entityId + "|" + f.action + "|"
      + f.actorType + "|" + f.actorId + "|" + f.payload + "|" + f.timestamp
  {
    var lead := Leading(f);
    assert lead[1..][0] == f.prevHash && lead[1..][1..] == lead[2..];
    assert lead[2..][0] == f.entityType && lead[2..][1..] == lead[3..];
    assert lead[3..][0] == f.entityId && lead[3..][1..] == lead[4..];
    assert lead[4..][0] == f.action && lead[4..][1..] == lead[5..];
    assert lead[5..][0] == f.actorType && lead[5..][1..] == [];
    assert JoinLeading(lead[5..]) == f.actorType + "|";
    assert JoinLeading(lead[4..]) == f.action + "|" + f.actorType + "|";
    assert JoinLeading(lead[3..]) == f.entityId + "|" + f.action + "|" + f.actorType + "|";
    assert JoinLeading(lead[2..]) == f.entityType + "|" + f.entityId + "|" + f.action + "|" + f.actorType + "|";
    assert JoinLeading(lead) == Decimal(f.seqNo) + "|" + f.prevHash + "|" + f.entityType + "|" + f.entityId + "|"
      + f.action + "|" + f.actorType + "|";
  }

  predicate BarFree(lead: seq<string>) {
    forall i | 0 <= i < |lead| :: BAR !in lead[i]
  }

  // ---- JSON text ----

  /** Where a reader of JSON text stands: outside strings, inside one, or after a backslash in one. */
  datatype Place = Outside | Inside | Escaped

  /** Outside strings JSON holds neither a bar nor a backslash. */
  function Advance(p: Place, ch: char): Option<Place> {
    match p
    case Outside => if ch == QUOTE then Some(Inside) else if ch in {BAR, BACKSLASH} then None else Some(Outside)
    case Inside => if ch == QUOTE then Some(Outside) else if ch == BACKSLASH then Some(Escaped) else Some(Inside)
    case Escaped => Some(Inside)
  }

  function Scan(p: Place, s: string): Option<Place>
    decreases |s|
  {
    if s == "" then Some(p)
    else match Advance(p, s[0])
      case None => None
      case Some(q) => Scan(q, s[1..])
  }

  /** What json.dumps of an object always is: it opens with a brace, and ends with every string closed. */
  predicate JsonText(s: string) {
    s != "" && s[0] == '{' && Scan(Outside, s) == Some(Outside)
  }

  lemma {:induction false} ScanJoin(p: Place, a: string, b: string)
    ensures Scan(p, a + b) == match Scan(p, a) case None => None case Some(q) => Scan(q, b)
    decreases |a|
  {
    if a == "" {
      assert a + b == b;
    } else {
      assert (a + b)[1..] == a[1..] + b;
      var q := Advance(p, a[0]);
      if q.Some? { ScanJoin(q.value, a[1..], b); }
    }
  }

  /** Read from outside and from inside a string at once, the two readers stay on opposite sides of every quote. */
  lemma {:induction false} OppositeSides(p: Place, q: Place, s: string)
    requires {p, q} == {Outside, Inside} && Scan(p, s).Some? && Scan(q, s).Some?
    ensures {Scan(p, s).value, Scan(q, s).value} == {Outside, Inside}
    decreases |s|
  {
    if s != "" {
      OppositeSides(Advance(p, s[0]).value, Advance(q, s[0]).value, s[1..]);
    }
  }

  /** JSON text never ends in a bar followed by JSON text: that bar would have to be in a string left open. */
  lemma NoJsonAfterBar(before: string, json: string)
    requires JsonText(json)
    ensures !JsonText(before + [BAR] + json)
  {
    var s := before + [BAR] + json;
    if JsonText(s) {
      assert s == before + ([BAR] + json);
      ScanJoin(Outside, before, [BAR] + json);
      var p := Scan(Outside, before).value;
      assert ([BAR] + json)[1..] == json;
      assert p != Outside && Scan(Inside, json) == Some(Outside);
      OppositeSides(Outside, Inside, json);
    }
  }

  /** The text before and after the first bar that JSON text follows. */
  function CutJson(s: string): Option<(string, string)> {
    if s == "" then None
    else if s[0] == BAR && JsonText(s[1..]) then Some(("", s[1..]))
    else match CutJson(s[1..])
      case None => None
      case Some(p) => Some(([s[0]] + p.0, p.1))
  }

  lemma {:induction false} CutJsonParts(s: string)
    ensures CutJson(s).Some? ==> var p := CutJson(s).value; s == p.0 + [BAR] + p.1 && JsonText(p.1)
  {
    if s != "" {
      assert s == [s[0]] + s[1..];
      CutJsonParts(s[1..]);
    }
  }

  /** Whatever comes before it, the payload is found: no earlier bar can be taken for its start. */
  lemma {:induction false} CutJsonOf(before: string, json: string)
    requires JsonText(json)
    ensures CutJson(before + [BAR] + json) == Some((before, json))
  {
    var s := before + [BAR] + json;
    if before == "" {
      assert s[1..] == json;
    } else {
      assert s[0] == before[0] && before == [before[0]] + before[1..] && s[1..] == before[1..] + [BAR] + json;
      NoJsonAfterBar(before[1..], json);
      CutJsonOf(before[1..], json);
    }
  }

  // ---- Reading preimages back ----

  /** Real events: the payload is JSON text, and hashes and timestamps hold no bar. The other texts are arbitrary. */
  predicate Recorded(f: Fields) {
    JsonText(f.payload) && BAR !in f.prevHash && BAR !in f.timestamp
  }

  /** Recorded events whose types, entity id and action hold no bar; actor id and payload may hold any number. */
  predicate Clean(f: Fields) {
    JsonText(f.payload) && BAR !in f.timestamp && BarFree(Leading(f))
  }

  /** Cuts off `n` leading parts. */
  function TakeLeading(s: string, n: nat): Option<(seq<string>, string)>
    decreases n
  {
    if n == 0 then Some(([], s))
    else match CutFirst(s, BAR)
      case None => None
      case Some(p) =>
        match TakeLeading(p.1, n - 1)
        case None => None
        case Some(q) => Some(([p.0] + q.0, q.1))
  }

  /** The reader of preimages: six cuts from the left, one from the right, and one before the payload. */
  function Decode(s: string): Option<Fields> {
    match TakeLeading(s, 6)
    case None => None
    case Some(p) =>
      if |p.0| != 6 then None else
      match CutLast(p.1, BAR)
      case None => None
      case Some(q) =>
        match CutJson(q.0)
        case None => None
        case Some(r) =>
          Some(Fields(DecimalValue(p.0[0]), p.0[1], p.0[2], p.0[3], p.0[4], p.0[5], r.0, r.1, q.1))
  }

  lemma JoinSplits(lead: seq<string>, rest: string)
    requires lead != []
    ensures JoinLeading(lead) + rest == lead[0] + [BAR] + (JoinLeading(lead[1..]) + rest)
  {
  }

  lemma {:induction false} TakeJoined(lead: seq<string>, rest: string)
    requires BarFree(lead)
    ensures TakeLeading(JoinLeading(lead) + rest, |lead|) == Some((lead, rest))
  {
    if lead == [] {
      assert JoinLeading(lead) + rest == rest;
    } else {
      JoinSplits(lead, rest);
      CutFirstOf(lead[0], JoinLeading(lead[1..]) + rest, BAR);
      TakeJoined(lead[1..], rest);
      assert [lead[0]] + lead[1..] == lead;
    }
  }

  /** Cutting once text that still holds a bar after `before`: exact, and at most `before` is consumed. */
  lemma CutWithin(before: string, after: string)
    ensures var c := CutFirst(before + [BAR] + after, BAR);
      && c.Some? && BAR !in c.value.0
      && before + [BAR] + after == c.value.0 + [BAR] + c.value.1
      && |after| <= |c.value.1| && c.value.1 == c.value.1[..|c.value.1| - |after|] + after
  {
    var s := before + [BAR] + after;
    assert s[|before|] == BAR;
    CutFirstParts(s, BAR);
    var p := CutFirst(s, BAR).value;
    FirstCutIsEarly(s, p.0, p.1, |before|);
    SuffixOfSuffix(s, p.1, after);
  }

  lemma FirstCutIsEarly(s: string, left: string, right: string, at: nat)
    requires s == left + [BAR] + right && BAR !in left && at < |s| && s[at] == BAR
    ensures |left| <= at
  {
    assert forall k | 0 <= k < |left| :: s[k] == left[k];
  }

  lemma SuffixOfSuffix(s: string, long: string, short: string)
    requires |short| <= |long| <= |s| && s[|s| - |long|..] == long && s[|s| - |short|..] == short
    ensures long == long[..|long| - |short|] + short
  {
    assert long[|long| - |short|..] == short;
  }

  /** Whatever the parts contain, cutting |lead| times succeeds, is exact, and leaves `rest` as a suffix. */
  lemma {:induction false} TakeAny(s: string, before: string, lead: seq<string>, rest: string)
    requires s == before + (JoinLeading(lead) + rest)
    ensures TakeLeading(s, |lead|).Some?
    ensures var p := TakeLeading(s, |lead|).value;
      && |p.0| == |lead| && BarFree(p.0) && s == JoinLeading(p.0) + p.1
      && |rest| <= |p.1| && p.1 == p.1[..|p.1| - |rest|] + rest
    decreases |lead|
  {
    if lead == [] {
      assert s[|before|..] == rest;
    } else {
      var after := JoinLeading(lead[1..]) + rest;
      assert s == before + lead[0] + [BAR] + after;
      CutWithin(before + lead[0], after);
      var p := CutFirst(s, BAR).value;
      TakeAny(p.1, p.1[..|p.1| - |after|], lead[1..], rest);
      JoinOne(s, p.0, p.1, TakeLeading(p.1, |lead| - 1).value);
    }
  }

  lemma JoinOne(s: string, first: string, tail: string, q: (seq<string>, string))
    requires s == first + [BAR] + tail && tail == JoinLeading(q.0) + q.1
    requires BAR !in first && BarFree(q.0)
    ensures BarFree([first] + q.0) && s == JoinLeading([first] + q.0) + q.1
  {
    assert ([first] + q.0)[1..] == q.0;
  }

  /** The tail of a preimage, whatever was left of the actor id: actor, payload and timestamp come apart again. */
  lemma TailComesApart(actor: string, json: string, timestamp: string)
    requires JsonText(json) && BAR !in timestamp
    ensures var tail := actor + [BAR] + json + [BAR] + timestamp;
      && CutLast(tail, BAR) == Some((actor + [BAR] + json, timestamp))
      && CutJson(actor + [BAR] + json) == Some((actor, json))
  {
    CutLastOf(actor + [BAR] + json, timestamp, BAR);
    CutJsonOf(actor, json);
  }

  lemma SequenceTextSurvives(f: Fields)
    ensures TakeLeading(Preimage(f), 6).Some? ==>
      var p := TakeLeading(Preimage(f), 6).value; |p.0| > 0 && p.0[0] == Decimal(f.seqNo)
  {
    DecimalRoundTrip(f.seqNo);
    var rest := f.actorId + [BAR] + f.payload + [BAR] + f.timestamp;
    JoinSplits(Leading(f), rest);
    CutFirstOf(Decimal(f.seqNo), JoinLeading(Leading(f)[1..]) + rest, BAR);
  }

  /** Six cuts leave bar-free parts, and an actor text before the payload and the timestamp. */
  lemma CutsOfPreimage(f: Fields) returns (lead: seq<string>, actor: string)
    ensures |lead| == 6 && BarFree(lead) && lead[0] == Decimal(f.seqNo)
    ensures var tail := actor + [BAR] + f.payload + [BAR] + f.timestamp;
      TakeLeading(Preimage(f), 6) == Some((lead, tail)) && Preimage(f) == JoinLeading(lead) + tail
  {
    var rest := f.actorId + [BAR] + f.payload + [BAR] + f.timestamp;
    assert Preimage(f) == "" + (JoinLeading(Leading(f)) + rest);
    TakeAny(Preimage(f), "", Leading(f), rest);
    SequenceTextSurvives(f);
    var p := TakeLeading(Preimage(f), 6).value;
    lead, actor := p.0, p.1[..|p.1| - |rest|] + f.actorId;
    assert p.1 == actor + [BAR] + f.payload + [BAR] + f.timestamp;
  }

  /** Reading the preimage of a recorded event yields a clean event with the very same preimage, payload and time. */
  lemma DecodeNormalises(f: Fields)
    requires Recorded(f)
    ensures var d := Decode(Preimage(f));
      && d.Some? && Clean(d.value) && Preimage(d.value) == Preimage(f)
      && d.value.payload == f.payload && d.value.timestamp == f.timestamp
  {
    var lead, actor := CutsOfPreimage(f);
    TailComesApart(actor, f.payload, f.timestamp);
    DecimalRoundTrip(f.seqNo);
    var d := Fields(f.seqNo, lead[1], lead[2], lead[3], lead[4], lead[5], actor, f.payload, f.timestamp);
    assert Leading(d) == lead;
    assert Decode(Preimage(f)) == Some(d);
  }

  /** A preimage can be read back to its event exactly when no field but the actor id and the payload holds a bar. */
  lemma RoundTripExactlyWhenClean(f: Fields)
    requires Recorded(f)
    ensures Decode(Preimage(f)) == Some(f) <==> Clean(f)
  {
    DecodeNormalises(f);
    if Clean(f) {
      CleanReadsBack(f);
    }
  }

  lemma CleanReadsBack(f: Fields)
    requires Clean(f)
    ensures Decode(Preimage(f)) == Some(f)
  {
    TakeJoined(Leading(f), f.actorId + [BAR] + f.payload + [BAR] + f.timestamp);
    TailComesApart(f.actorId, f.payload, f.timestamp);
    DecimalRoundTrip(f.seqNo);
  }

  /** Clean events have injective preimages, whatever their actor ids and payloads hold. */
  lemma CleanPreimagesAgree(f: Fields, g: Fields)
    requires Clean(f) && Clean(g) && Preimage(f) == Preimage(g)
    ensures f == g
  {
    CleanReadsBack(f);
    CleanReadsBack(g);
  }

  // ---- Among all recorded events ----

  /** The texts a caller of record_event supplies. */
  function Supplied(f: Fields): seq<string> {
    [f.entityType, f.entityId, f.action, f.actorType, f.actorId]
  }

  /** No other recorded event shares the preimage. */
  ghost predicate Unmistakable(f: Fields) {
    forall g: Fields | Recorded(g) && Preimage(g) == Preimage(f) :: g == f
  }

  /** A bar in the actor id alone can be handed to the actor type. */
  function HandOver(f: Fields): Fields
    requires BAR in f.actorId
  {
    CutFirstParts(f.actorId, BAR);
    var p := CutFirst(f.actorId, BAR).value;
    f.(actorType := f.actorType + [BAR] + p.0, actorId := p.1)
  }

  lemma HandOverCollides(f: Fields)
    requires BAR in f.actorId
    ensures Preimage(HandOver(f)) == Preimage(f) && HandOver(f) != f
  {
    CutFirstParts(f.actorId, BAR);
    var p := CutFirst(f.actorId, BAR).value;
    var lead := [Decimal(f.seqNo), f.prevHash, f.entityType, f.entityId, f.action];
    assert Leading(f) == lead + [f.actorType] && Leading(HandOver(f)) == lead + [HandOver(f).actorType];
    MovedBoundary(lead, f.actorType, p.0, p.1, [BAR] + f.payload + [BAR] + f.timestamp);
    var tail := [BAR] + f.payload + [BAR] + f.timestamp;
    assert f.actorId + tail == f.actorId + [BAR] + f.payload + [BAR] + f.timestamp;
    assert p.1 + tail == p.1 + [BAR] + f.payload + [BAR] + f.timestamp;
    assert |HandOver(f).actorType| > |f.actorType|;
  }

  /** Text after a part's bar may as well belong to the part. */
  lemma MovedBoundary(lead: seq<string>, last: string, moved: string, rest: string, tail: string)
    ensures JoinLeading(lead + [last]) + (moved + [BAR] + rest + tail)
      == JoinLeading(lead + [last + [BAR] + moved]) + (rest + tail)
  {
    JoinLast(lead, last);
    JoinLast(lead, last + [BAR] + moved);
  }

  lemma {:induction false} JoinLast(lead: seq<string>, last: string)
    ensures JoinLeading(lead + [last]) == JoinLeading(lead) + (last + [BAR])
  {
    if lead == [] {
      assert (lead + [last])[1..] == [];
    } else {
      assert (lead + [last])[1..] == lead[1..] + [last];
      JoinLast(lead[1..], last);
    }
  }

  function CountBars(s: string): nat {
    if s == "" then 0 else (if s[0] == BAR then 1 else 0) + CountBars(s[1..])
  }

  lemma {:induction false} CountBarsJoin(a: string, b: string)
    ensures CountBars(a + b) == CountBars(a) + CountBars(b)
  {
    if a == "" {
      assert a + b == b;
    } else {
      assert (a + b)[1..] == a[1..] + b;
      CountBarsJoin(a[1..], b);
    }
  }

  lemma {:induction false} NoBarsNone(s: string)
    ensures CountBars(s) == 0 <==> BAR !in s
  {
    if s != "" {
      assert s == [s[0]] + s[1..];
      NoBarsNone(s[1..]);
    }
  }

  function CountAll(lead: seq<string>): nat {
    if lead == [] then 0 else CountBars(lead[0]) + CountAll(lead[1..])
  }

  lemma {:induction false} CountJoined(lead: seq<string>)
    ensures CountBars(JoinLeading(lead)) == CountAll(lead) + |lead|
    ensures CountAll(lead) == 0 <==> BarFree(lead)
  {
    if lead != [] {
      CountJoined(lead[1..]);
      NoBarsNone(lead[0]);
      CountBarsJoin(lead[0] + [BAR], JoinLeading(lead[1..]));
      CountBarsJoin(lead[0], [BAR]);
      assert BarFree(lead) <==> BAR !in lead[0] && BarFree(lead[1..]) by {
        assert lead == [lead[0]] + lead[1..];
      }
    }
  }

  lemma CountPreimage(f: Fields)
    ensures CountBars(Preimage(f))
      == CountAll(Leading(f)) + CountBars(f.actorId) + CountBars(f.payload) + CountBars(f.timestamp) + 8
  {
    CountJoined(Leading(f));
    CountBarsJoin(JoinLeading(Leading(f)), f.actorId + [BAR] + f.payload + [BAR] + f.timestamp);
    CountBarsJoin(f.actorId + [BAR] + f.payload + [BAR], f.timestamp);
    CountBarsJoin(f.actorId + [BAR] + f.payload, [BAR]);
    CountBarsJoin(f.actorId + [BAR], f.payload);
    CountBarsJoin(f.actorId, [BAR]);
  }

  /** An event without bars in its texts shares its preimage with no recorded event: every bar is spoken for. */
  lemma BarFreeIsUnmistakable(f: Fields, g: Fields)
    requires Recorded(f) && Recorded(g) && Preimage(f) == Preimage(g) && Clean(f) && BAR !in f.actorId
    ensures g == f
  {
    DecodeNormalises(g);
    CleanReadsBack(f);
    CountPreimage(f);
    CountPreimage(g);
    CountJoined(Leading(f));
    CountJoined(Leading(g));
    NoBarsNone(f.actorId);
    assert Clean(g);
    CleanPreimagesAgree(f, g);
  }

  lemma SuppliedBars(f: Fields)
    requires Recorded(f)
    ensures BarFree(Supplied(f)) <==> Clean(f) && BAR !in f.actorId
  {
    DecimalRoundTrip(f.seqNo);
    assert Leading(f)[2] == Supplied(f)[0] && Leading(f)[3] == Supplied(f)[1] && Leading(f)[4] == Supplied(f)[2];
    assert Leading(f)[5] == Supplied(f)[3] && Supplied(f)[4] == f.actorId;
  }

  /** Among all events that can be recorded, one is told apart from the rest exactly when none of its supplied texts
      holds a bar. */
  lemma UnmistakableExactlyWithoutBars(f: Fields)
    requires Recorded(f)
    ensures Unmistakable(f) <==> BarFree(Supplied(f))
  {
    SuppliedBars(f);
    if BarFree(Supplied(f)) {
      forall g: Fields | Recorded(g) && Preimage(g) == Preimage(f) ensures g == f {
        BarFreeIsUnmistakable(f, g);
      }
    } else if Clean(f) {
      HandOverCollides(f);
      assert Recorded(HandOver(f));
    } else {
      DecodeNormalises(f);
      assert Recorded(Decode(Preimage(f)).value) by { assert BAR !in Leading(Decode(Preimage(f)).value)[1]; }
    }
  }

  /** Two events with the payload {} that differ only in where the actor's type ends and its id begins. */
  lemma BarInActorTypeCollides()
    ensures var f := Fields(1, "0", "E", "1", "A", "SYSTEM", "x|y", "{}", "t");
      var g := f.(actorType := "SYSTEM|x", actorId := "y");
      && Recorded(f) && Recorded(g) && f != g && Clean(f) && !Clean(g) && Preimage(f) == Preimage(g)
  {
    var f := Fields(1, "0", "E", "1", "A", "SYSTEM", "x|y", "{}", "t");
    HandOverShort(f);
    HandOverCollides(f);
    BracesAreJson();
    DecimalRoundTrip(1);
    var g := f.(actorType := "SYSTEM|x", actorId := "y");
    assert g.actorType[6] == BAR && Leading(g)[5] == g.actorType;
  }

  lemma HandOverShort(f: Fields)
    requires f.actorType == "SYSTEM" && f.actorId == "x|y"
    ensures BAR in f.actorId && HandOver(f) == f.(actorType := "SYSTEM|x", actorId := "y")
  {
    assert "x" + [BAR] + "y" == "x|y" && "x|y"[1] == BAR;
    CutFirstOf("x", "y", BAR);
    assert "SYSTEM" + [BAR] + "x" == "SYSTEM|x";
  }

  lemma BracesAreJson()
    ensures JsonText("{}")
  {
    assert "{}"[1..] == "}" && "}"[1..] == "";
    assert Scan(Outside, "}") == Some(Outside);
  }
}
