/** Decimal rendering and separator-delimited text. */
module Text {
  import opened Domain

  function Digit(d: nat): char
    requires d < 10
  {
    "0123456789"[d]
  }

  /** Python's str(n) for a non-negative integer. */
  function Decimal(n: nat): string {
    if n < 10 then [Digit(n)] else Decimal(n / 10) + [Digit(n % 10)]
  }

  function DigitValue(c: char): nat {
    if '0' <= c <= '9' then c as int - '0' as int else 0
  }

  function DecimalValue(s: string): nat {
    if s == "" then 0 else 10 * DecimalValue(s[..|s| - 1]) + DigitValue(s[|s| - 1])
  }

  lemma DigitRoundTrip(d: nat)
    requires d < 10
    ensures '0' <= Digit(d) <= '9' && DigitValue(Digit(d)) == d
  {
  }

  /** Decimal text is read back exactly, so it is injective, and holds digits only. */
  lemma {:induction false} DecimalRoundTrip(n: nat)
    ensures DecimalValue(Decimal(n)) == n
    ensures forall c | c in Decimal(n) :: '0' <= c <= '9'
  {
    DigitRoundTrip(n % 10);
    if n < 10 {
      assert Decimal(n)[..0] == "";
    } else {
      DecimalRoundTrip(n / 10);
      assert Decimal(n)[..|Decimal(n)| - 1] == Decimal(n / 10);
    }
  }

  /** The text before and after the first `sep`, when there is one. */
  function CutFirst(s: string, sep: char): Option<(string, string)> {
    if s == "" then None
    else if s[0] == sep then Some(("", s[1..]))
    else match CutFirst(s[1..], sep)
      case None => None
      case Some(p) => Some(([s[0]] + p.0, p.1))
  }

  /** The text before and after the last `sep`, when there is one. */
  function CutLast(s: string, sep: char): Option<(string, string)> {
    if s == "" then None
    else if s[|s| - 1] == sep then Some((s[..|s| - 1], ""))
    else match CutLast(s[..|s| - 1], sep)
      case None => None
      case Some(p) => Some((p.0, p.1 + [s[|s| - 1]]))
  }

  /** A cut loses nothing, leaves no separator on its bare side, and exists exactly when `sep` occurs. */
  lemma {:induction false} CutFirstParts(s: string, sep: char)
    ensures CutFirst(s, sep).Some? <==> sep in s
    ensures CutFirst(s, sep).Some? ==>
      var p := CutFirst(s, sep).value; s == p.0 + [sep] + p.1 && sep !in p.0
  {
    if s != "" {
      assert s == [s[0]] + s[1..];
      CutFirstParts(s[1..], sep);
    }
  }

  lemma {:induction false} CutLastParts(s: string, sep: char)
    ensures CutLast(s, sep).Some? <==> sep in s
    ensures CutLast(s, sep).Some? ==>
      var p := CutLast(s, sep).value; s == p.0 + [sep] + p.1 && sep !in p.1
  {
    if s != "" {
      assert s == s[..|s| - 1] + [s[|s| - 1]];
      CutLastParts(s[..|s| - 1], sep);
    }
  }

  lemma {:induction false} CutFirstOf(a: string, b: string, sep: char)
    requires sep !in a
    ensures CutFirst(a + [sep] + b, sep) == Some((a, b))
  {
    var s := a + [sep] + b;
    if a == "" {
      assert s[1..] == b;
    } else {
      assert s[0] == a[0] && a == [a[0]] + a[1..] && s[1..] == a[1..] + [sep] + b;
      CutFirstOf(a[1..], b, sep);
    }
  }

  lemma {:induction false} CutLastOf(a: string, b: string, sep: char)
    requires sep !in b
    ensures CutLast(a + [sep] + b, sep) == Some((a, b))
  {
    var s := a + [sep] + b;
    if b == "" {
      assert s[..|s| - 1] == a;
    } else {
      var n := |b| - 1;
      assert s[|s| - 1] == b[n] && b == b[..n] + [b[n]] && s[..|s| - 1] == a + [sep] + b[..n];
      CutLastOf(a, b[..|b| - 1], sep);
    }
  }
}
