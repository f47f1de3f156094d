/** The printed form of todo ids, crates/todo-app/src/state.rs:131-134. */
module TodoIds {
  import opened Base

  function DigitChar(d: nat): char
    requires d < 10
  {
    '0' + d as char
  }

  predicate IsDigit(c: char) {
    '0' <= c <= '9'
  }

  function DigitValue(c: char): nat
    requires IsDigit(c)
  {
    c as int - '0' as int
  }

  /** Decimal digits, most significant first, no leading zeros. */
  function Decimal(n: nat): string {
    if n < 10 then [DigitChar(n)] else Decimal(n / 10) + [DigitChar(n % 10)]
  }

  /** format!("{}-{}", peer_id, n) */
  function PrintId(peer: string, n: nat): string {
    peer + "-" + Decimal(n)
  }

  // ----- reading an id back -----

  predicate IsNumeral(s: string) {
    && s != ""
    && (forall i :: 0 <= i < |s| ==> IsDigit(s[i]))
    && (|s| == 1 || s[0] != '0')
  }

  function NumeralValue(s: string): nat
    requires forall i :: 0 <= i < |s| ==> IsDigit(s[i])
  {
    if s == "" then 0 else 10 * NumeralValue(s[..|s| - 1]) + DigitValue(s[|s| - 1])
  }

  /** What stands before and after the last dash. */
  function SplitAtLastDash(s: string): Option<(string, string)> {
    if s == "" then
      None
    else
      var rest, c := s[..|s| - 1], s[|s| - 1];
      if c == '-' then
        Some((rest, ""))
      else
        match SplitAtLastDash(rest)
        case None => None
        case Some(parts) => Some((parts.0, parts.1 + [c]))
  }

  function ParseId(s: string): Option<(string, nat)> {
    match SplitAtLastDash(s)
    case None => None
    case Some(parts) => if IsNumeral(parts.1) then Some((parts.0, NumeralValue(parts.1))) else None
  }

  lemma {:induction false} DecimalReads(n: nat)
    ensures IsNumeral(Decimal(n)) && NumeralValue(Decimal(n)) == n
    ensures Decimal(n)[0] == '0' <==> n == 0
  {
    if n >= 10 {
      DecimalReads(n / 10);
      var s := Decimal(n);
      assert s[..|s| - 1] == Decimal(n / 10);
    } else {
      assert Decimal(n)[..0] == "";
    }
  }

  lemma {:induction false} NumeralPrints(s: string)
    requires IsNumeral(s)
    ensures Decimal(NumeralValue(s)) == s
    ensures s[0] != '0' ==> NumeralValue(s) > 0
  {
    var rest := s[..|s| - 1];
    if |s| == 1 {
      assert rest == "";
    } else {
      assert rest[0] == s[0];
      NumeralPrints(rest);
      assert s == rest + [s[|s| - 1]];
    }
  }

  lemma {:induction false} SplitFinds(s: string, before: string, after: string)
    requires s == before + "-" + after
    requires '-' !in after
    ensures SplitAtLastDash(s) == Some((before, after))
    decreases |after|
  {
    if after == "" {
      assert s[..|s| - 1] == before;
    } else {
      var rest := s[..|s| - 1];
      assert rest == before + "-" + after[..|after| - 1];
      SplitFinds(rest, before, after[..|after| - 1]);
      assert after == after[..|after| - 1] + [s[|s| - 1]];
    }
  }

  lemma {:induction false} SplitJoins(s: string)
    ensures match SplitAtLastDash(s)
            case None => '-' !in s
            case Some(parts) => s == parts.0 + "-" + parts.1 && '-' !in parts.1
  {
    if s != "" {
      SplitJoins(s[..|s| - 1]);
      assert s == s[..|s| - 1] + [s[|s| - 1]];
    }
  }

  /** Splitting at the last dash undoes printing, whatever dashes and digits the
      peer id contains, and nothing but a printed id is read back. */
  lemma IdRoundTrip(s: string, peer: string, n: nat)
    ensures ParseId(s) == Some((peer, n)) <==> s == PrintId(peer, n)
  {
    if s == PrintId(peer, n) {
      DecimalReads(n);
      SplitFinds(s, peer, Decimal(n));
    }
    if ParseId(s) == Some((peer, n)) {
      SplitJoins(s);
      var parts := SplitAtLastDash(s).value;
      NumeralPrints(parts.1);
    }
  }

  /** Distinct (peer, number) pairs never print alike. */
  lemma PrintIdInjective(p: string, n: nat, q: string, m: nat)
    ensures PrintId(p, n) == PrintId(q, m) <==> p == q && n == m
  {
    IdRoundTrip(PrintId(p, n), p, n);
    IdRoundTrip(PrintId(p, n), q, m);
  }

  // ----- the replica id that the bootstrap derives from a peer id -----

  function DigitsOf(s: string): string {
    if s == "" then "" else (if IsDigit(s[0]) then [s[0]] else "") + DigitsOf(s[1..])
  }

  /** Collecting digits goes character by character and keeps their order. */
  lemma {:induction false} DigitsOfConcat(a: string, b: string)
    ensures DigitsOf(a + b) == DigitsOf(a) + DigitsOf(b)
    ensures |a| == 1 ==> DigitsOf(a) == if '0' <= a[0] <= '9' then a else ""
  {
    if a == "" {
      assert a + b == b;
    } else {
      DigitsOfConcat(a[1..], b);
      assert (a + b)[1..] == a[1..] + b && a == [a[0]] + a[1..];
    }
  }

  lemma {:induction false} DigitsOfAreDigits(s: string)
    ensures forall i :: 0 <= i < |DigitsOf(s)| ==> IsDigit(DigitsOf(s)[i])
  {
    if s != "" {
      DigitsOfAreDigits(s[1..]);
    }
  }

  /** The peer id's ASCII digits read as a u64, or 1 when there are none or too
      many (crates/todo-app/src/main.rs:78-83). */
  function DerivedReplicaId(peer: string): U64 {
    DigitsOfAreDigits(peer);
    var value := NumeralValue(DigitsOf(peer));
    if DigitsOf(peer) == "" || value > U64_MAX then 1 else value
  }
}
