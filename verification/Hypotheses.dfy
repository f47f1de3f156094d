/** What the run theorems ask of a deployment, and what goes wrong without it. */
module Hypotheses {
  import opened Base
  import opened TodoIds
  import opened TodoDocs
  import Clocks = VectorClocks

  /** Two peers that share a replica id, one item each: the clocks call the states
      equal although they hold different items. */
  lemma SharedReplicaIdHidesItems(p: string, q: string, r: U64, x: string, y: string)
    requires p != q && Trim(x) != "" && Trim(y) != ""
    ensures var a := AfterAdd(Fresh(p, r), x).doc;
            var b := AfterAdd(Fresh(q, r), y).doc;
            Clocks.Compare(a.clock, b.clock) == Some(Clocks.Equal) && !(a.added <= b.added) && !(b.added <= a.added)
  {
    var a := AfterAdd(Fresh(p, r), x).doc;
    var b := AfterAdd(Fresh(q, r), y).doc;
    PrintIdInjective(p, 1, q, 1);
    assert a.clock == b.clock;
    assert PrintId(p, 1) in a.added && PrintId(p, 1) !in b.added;
    assert PrintId(q, 1) in b.added && PrintId(q, 1) !in a.added;
  }

  /** The bootstrap gives every peer id without digits the replica id 1. */
  lemma {:induction false} PeersWithoutDigitsCollide(p: string)
    requires forall i :: 0 <= i < |p| ==> !IsDigit(p[i])
    ensures DigitsOf(p) == "" && DerivedReplicaId(p) == 1
  {
    if p != "" {
      PeersWithoutDigitsCollide(p[1..]);
    }
  }

  predicate AllDigits(s: string) {
    forall i :: 0 <= i < |s| ==> IsDigit(s[i])
  }

  function StripZeros(s: string): string {
    if s != "" && s[0] == '0' then StripZeros(s[1..]) else s
  }

  lemma {:induction false} LeadingZero(s: string)
    requires AllDigits(s) && s != "" && s[0] == '0'
    ensures NumeralValue(s[1..]) == NumeralValue(s)
  {
    if |s| > 1 {
      var rest := s[..|s| - 1];
      LeadingZero(rest);
      assert s[1..][..|s| - 2] == rest[1..];
    }
  }

  lemma {:induction false} StrippedValue(s: string)
    requires AllDigits(s)
    ensures AllDigits(StripZeros(s)) && NumeralValue(StripZeros(s)) == NumeralValue(s)
    ensures StripZeros(s) == "" || StripZeros(s)[0] != '0'
  {
    if s != "" && s[0] == '0' {
      LeadingZero(s);
      StrippedValue(s[1..]);
    }
  }

  lemma StrippedUnique(a: string, b: string)
    requires AllDigits(a) && AllDigits(b)
    requires (a == "" || a[0] != '0') && (b == "" || b[0] != '0')
    ensures NumeralValue(a) == NumeralValue(b) <==> a == b
  {
    if a != "" {
      NumeralPrints(a);
    }
    if b != "" {
      NumeralPrints(b);
    }
  }

  /** The digits of a peer id without leading zeros; if there are no digits or they
      exceed a u64 they count as "1". */
  function SignificantDigits(peer: string): string {
    var digits := DigitsOf(peer);
    DigitsOfAreDigits(peer);
    if digits == "" || NumeralValue(digits) > U64_MAX then "1" else StripZeros(digits)
  }

  lemma SignificantValue(p: string)
    ensures var s := SignificantDigits(p);
            AllDigits(s) && NumeralValue(s) == DerivedReplicaId(p) && (s == "" || s[0] != '0')
  {
    DigitsOfAreDigits(p);
    StrippedValue(DigitsOf(p));
    assert "1"[..0] == "" && NumeralValue("") == 0 && NumeralValue("1") == 1;
  }

  /** The bootstrap gives two peer ids one replica id exactly when their significant
      digits are the same. */
  lemma ReplicaIdsCollideIff(p: string, q: string)
    ensures DerivedReplicaId(p) == DerivedReplicaId(q) <==> SignificantDigits(p) == SignificantDigits(q)
  {
    SignificantValue(p);
    SignificantValue(q);
    StrippedUnique(SignificantDigits(p), SignificantDigits(q));
  }

  /** A restarted peer hands out its first id again; with another text the two
      states disagree, and their merge depends on its direction. */
  lemma RestartReusesIds(p: string, r: U64, x: string, y: string)
    requires Trim(x) != "" && Trim(y) != "" && Trim(x) != Trim(y)
    ensures var a := AfterAdd(Fresh(p, r), x).doc;
            var b := AfterAdd(Fresh(p, r), y).doc;
            && Clocks.Compare(a.clock, b.clock) == Some(Clocks.Equal)
            && Merged(a, b) != Merged(b, a)
  {
    var a := AfterAdd(Fresh(p, r), x).doc;
    var b := AfterAdd(Fresh(p, r), y).doc;
    var id := PrintId(p, 1);
    assert a.clock == b.clock;
    assert a.texts == map[id := Trim(x)] && b.texts == map[id := Trim(y)];
    assert id in a.texts && id in b.texts && a.texts[id] != b.texts[id];
    MergeCommutesIff(a, b);
  }

  lemma UntoggleClocks(c: Clocks.Clock, r: U64)
    requires Clocks.Positive(c) && Clocks.Get(c, r) < U64_MAX - 1
    ensures var c1 := Clocks.Incremented(c, r);
            var c2 := Clocks.Incremented(c1, r);
            Clocks.Merged(c1, c2) == c2
  {
    var c1 := Clocks.Incremented(c, r);
    var c2 := Clocks.Incremented(c1, r);
    Clocks.OperationsKeepPositive(c, c, r, 0);
    Clocks.OperationsKeepPositive(c1, c2, r, 0);
    Clocks.IncrementIsStrict(c1, r);
    Clocks.MergeIsLub(c1, c2, c2);
    Clocks.EqualIsStructural(Clocks.Merged(c1, c2), c2);
  }

  /** Un-toggling is not monotone. Take any state with a visible unset item, toggled
      on (`on`) and off again (`off`). A replica that merged `on` and then `off` has
      the clock of `off` but still shows the flag set; and as soon as its state
      comes back, the un-toggle is undone at its origin too. */
  lemma UntoggleIsUndone(s: Replica, id: string)
    requires id in s.doc.added && id !in s.doc.removed && !Flag(s.doc.completed, id)
    requires Clocks.Positive(s.doc.clock) && Clocks.Get(s.doc.clock, s.replicaId) < U64_MAX - 1
    ensures var on := AfterToggle(s, id);
            var off := AfterToggle(on, id);
            var other := Merged(on.doc, off.doc);
            && Flag(on.doc.completed, id) && !Flag(off.doc.completed, id)
            && other.clock == off.doc.clock && Flag(other.completed, id)
            && Flag(Merged(off.doc, other).completed, id)
  {
    hide Clocks.Incremented, Clocks.Merged, Clocks.Positive;
    UntoggleClocks(s.doc.clock, s.replicaId);
  }
}
