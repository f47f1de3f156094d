/** crates/crdt-core/src/vector_clock.rs */
module VectorClocks {
  import opened Base

  type Clock = map<U64, U64>

  datatype Ordering = Less | Equal | Greater

  /** An absent entry counts as zero. */
  function Get(c: Clock, r: U64): U64 {
    if r in c then c[r] else 0
  }

  /** No entry is stored with the value zero. */
  predicate Positive(c: Clock) {
    forall r :: r in c ==> c[r] > 0
  }

  // ----- the pointwise order, the reference for partial_cmp -----

  ghost predicate Leq(a: Clock, b: Clock) {
    forall r: U64 :: Get(a, r) <= Get(b, r)
  }

  ghost function Compare(a: Clock, b: Clock): Option<Ordering> {
    if Leq(a, b) then
      if Leq(b, a) then Some(Equal) else Some(Less)
    else
      if Leq(b, a) then Some(Greater) else None
  }

  function Flip(o: Option<Ordering>): Option<Ordering> {
    match o
    case Some(Less) => Some(Greater)
    case Some(Greater) => Some(Less)
    case _ => o
  }

  // ----- what the mutating operations do to the entries -----

  function Incremented(c: Clock, r: U64): Clock {
    c[r := WrappingAdd(Get(c, r), 1)]
  }

  function Observed(c: Clock, r: U64, n: U64): Clock {
    if n == 0 then c else c[r := Max(Get(c, r), n)]
  }

  /** Elementwise maximum; zero entries of `b` leave no trace. */
  function Merged(a: Clock, b: Clock): Clock {
    map r | r in a.Keys + b.Keys && (r in a || b[r] != 0) :: Max(Get(a, r), Get(b, r))
  }

  class VectorClock {
    var entries: Clock

    constructor ()
      ensures entries == map[]
    {
      entries := map[];
    }

    method Increment(replica: U64) returns (count: U64)
      modifies this
      ensures entries == Incremented(old(entries), replica)
      ensures count == Get(entries, replica)
    {
      if replica !in entries {
        entries := entries[replica := 0];
      }
      entries := entries[replica := WrappingAdd(entries[replica], 1)];
      count := entries[replica];
    }

    function Read(replica: U64): (count: U64)
      reads this
      ensures count == 0 || replica in entries
    {
      Get(entries, replica)
    }

    method Observe(replica: U64, counter: U64)
      modifies this
      ensures entries == Observed(old(entries), replica, counter)
    {
      if counter == 0 {
        return;
      }
      if replica !in entries {
        entries := entries[replica := 0];
      }
      entries := entries[replica := Max(entries[replica], counter)];
    }

    /** The keys of `this`, then those of `other`, each in an arbitrary order;
        a key of both is visited twice. Gives up on the first contradiction. */
    method PartialCmp(other: VectorClock) returns (r: Option<Ordering>)
      ensures r == Compare(entries, other.entries)
    {
      var selfLess, selfGreater := false, false;
      var mine, theirs := entries.Keys, other.entries.Keys;
      while mine + theirs != {}
        invariant mine <= entries.Keys && theirs <= other.entries.Keys
        invariant selfLess ==> !Leq(other.entries, entries)
        invariant selfGreater ==> !Leq(entries, other.entries)
        invariant !(selfLess && selfGreater)
        invariant forall k: U64 :: k !in mine + theirs && Get(entries, k) != Get(other.entries, k) ==>
                                     if Get(entries, k) < Get(other.entries, k) then selfLess else selfGreater
        decreases mine + theirs, |mine| + |theirs|
      {
        var k;
        if mine != {} {
          k :| k in mine;
          mine := mine - {k};
        } else {
          k :| k in theirs;
          theirs := theirs - {k};
        }
        var a, b := Get(entries, k), Get(other.entries, k);
        if a < b {
          selfLess := true;
        } else if a > b {
          selfGreater := true;
        }
        if selfLess && selfGreater {
          return None;
        }
      }
      r := if selfLess then Some(Less) else if selfGreater then Some(Greater) else Some(Equal);
    }

    method HappensBefore(other: VectorClock) returns (b: bool)
      ensures b <==> Leq(entries, other.entries) && !Leq(other.entries, entries)
    {
      var o := PartialCmp(other);
      b := o == Some(Less);
    }

    method ConcurrentWith(other: VectorClock) returns (b: bool)
      ensures b <==> !Leq(entries, other.entries) && !Leq(other.entries, entries)
    {
      var o := PartialCmp(other);
      b := o == None;
    }

    method Merge(other: VectorClock)
      requires this != other
      modifies this
      ensures entries == Merged(old(entries), other.entries)
    {
      var todo := other.entries.Keys;
      while todo != {}
        invariant todo <= other.entries.Keys
        invariant entries == Merged(old(entries), other.entries - todo)
        decreases todo
      {
        var k :| k in todo;
        var count := other.entries[k];
        if count != 0 {
          if k !in entries {
            entries := entries[k := 0];
          }
          entries := entries[k := Max(entries[k], count)];
        }
        MergedStep(old(entries), other.entries, todo, k);
        todo := todo - {k};
      }
      assert other.entries - {} == other.entries;
    }
  }

  // ----- the order -----

  lemma CompareReversed(a: Clock, b: Clock)
    ensures Compare(b, a) == Flip(Compare(a, b))
  {
  }

  lemma LeqTransitive(a: Clock, b: Clock, c: Clock)
    requires Leq(a, b) && Leq(b, c)
    ensures Leq(a, c)
  {
    forall r: U64 ensures Get(a, r) <= Get(c, r) {
      assert Get(a, r) <= Get(b, r);
    }
  }

  /** Chaining two comparisons: a strict step anywhere makes the whole strict. */
  lemma CompareTransitive(a: Clock, b: Clock, c: Clock)
    requires Compare(a, b) in {Some(Less), Some(Equal)}
    requires Compare(b, c) in {Some(Less), Some(Equal)}
    ensures Compare(a, c) == if Compare(a, b) == Some(Equal) then Compare(b, c) else Some(Less)
  {
    LeqTransitive(a, b, c);
    if Leq(c, a) {
      LeqTransitive(b, c, a);
      LeqTransitive(c, a, b);
    }
  }

  /** On clocks without zero entries the derived `==` is the order's Equal. */
  lemma EqualIsStructural(a: Clock, b: Clock)
    requires Positive(a) && Positive(b)
    ensures Compare(a, b) == Some(Equal) <==> a == b
  {
    if Compare(a, b) == Some(Equal) {
      forall r: U64 ensures r in a <==> r in b {
        assert Get(a, r) == Get(b, r);
      }
      forall r | r in a ensures a[r] == b[r] {
        assert Get(a, r) == Get(b, r);
      }
    }
  }

  /** Every operation keeps stored entries nonzero; increment does so exactly
      when it does not wrap. */
  lemma OperationsKeepPositive(a: Clock, b: Clock, r: U64, n: U64)
    requires Positive(a)
    ensures Positive(Observed(a, r, n))
    ensures Positive(Merged(a, b))
    ensures Positive(Incremented(a, r)) <==> Get(a, r) != U64_MAX
  {
    assert r in Incremented(a, r);
  }

  /** Observing gives the least clock above the old one whose entry has reached the
      seen counter; a zero counter leaves the entries as they are. */
  lemma ObserveIsLeast(c: Clock, r: U64, n: U64)
    ensures var o := Observed(c, r, n);
            Leq(c, o) && Get(o, r) >= n && forall u :: Leq(c, u) && Get(u, r) >= n ==> Leq(o, u)
    ensures Observed(c, r, 0) == c
    ensures n > 0 ==> Observed(c, r, n).Keys == c.Keys + {r}
  {
    var o := Observed(c, r, n);
    forall k: U64 ensures Get(c, k) <= Get(o, k) && (k != r ==> Get(o, k) == Get(c, k)) {
    }
  }

  /** An increment moves the clock strictly up, exactly when it does not wrap. */
  lemma IncrementIsStrict(c: Clock, r: U64)
    ensures Compare(c, Incremented(c, r)) == Some(Less) <==> Get(c, r) != U64_MAX
  {
    var d := Incremented(c, r);
    assert Get(d, r) == WrappingAdd(Get(c, r), 1);
    forall k: U64 | k != r ensures Get(d, k) == Get(c, k) {
    }
  }

  // ----- merge -----

  lemma MergedGet(a: Clock, b: Clock, r: U64)
    ensures Get(Merged(a, b), r) == Max(Get(a, r), Get(b, r))
  {
  }

  /** Merge is the least upper bound. */
  lemma MergeIsLub(a: Clock, b: Clock, u: Clock)
    ensures Leq(a, Merged(a, b)) && Leq(b, Merged(a, b))
    ensures Leq(Merged(a, b), u) <==> Leq(a, u) && Leq(b, u)
  {
    var m := Merged(a, b);
    forall r: U64 ensures Get(m, r) == Max(Get(a, r), Get(b, r)) {
      MergedGet(a, b, r);
    }
    if Leq(m, u) {
      LeqTransitive(a, m, u);
      LeqTransitive(b, m, u);
    }
  }

  lemma MergedKey(a: Clock, b: Clock, r: U64)
    ensures r in Merged(a, b) <==> r in a || Get(b, r) != 0
  {
  }

  /** Same keys and same values, said through Get. */
  lemma ClockExtensional(x: Clock, y: Clock)
    requires forall r: U64 :: Get(x, r) == Get(y, r) && (r in x <==> r in y)
    ensures x == y
  {
    forall r | r in x ensures x[r] == y[r] {
      assert Get(x, r) == Get(y, r);
    }
  }

  /** Folding in one more entry of `b`, the others of `todo` still to come. */
  lemma MergedStep(a: Clock, b: Clock, todo: set<U64>, k: U64)
    requires k in todo && todo <= b.Keys
    ensures var m := Merged(a, b - todo);
            Merged(a, b - (todo - {k})) == if b[k] == 0 then m else m[k := Max(Get(m, k), b[k])]
  {
    var b0, b1 := b - todo, b - (todo - {k});
    var m, x := Merged(a, b0), Merged(a, b1);
    var y := if b[k] == 0 then m else m[k := Max(Get(m, k), b[k])];
    assert forall r: U64 :: Get(b1, r) == if r == k then b[k] else Get(b0, r);
    MergedGet(a, b0, k);
    hide Merged;
    forall r: U64 ensures Get(x, r) == Get(y, r) && (r in x <==> r in y) {
      MergedGet(a, b0, r);
      MergedGet(a, b1, r);
      MergedKey(a, b0, r);
      MergedKey(a, b1, r);
    }
    ClockExtensional(x, y);
  }

  lemma MergeAssociative(a: Clock, b: Clock, c: Clock)
    ensures Merged(Merged(a, b), c) == Merged(a, Merged(b, c))
  {
    var ab, bc := Merged(a, b), Merged(b, c);
    forall r: U64
      ensures Get(Merged(ab, c), r) == Get(Merged(a, bc), r)
      ensures r in Merged(ab, c) <==> r in Merged(a, bc)
    {
      MergedGet(a, b, r); MergedGet(b, c, r); MergedGet(ab, c, r); MergedGet(a, bc, r);
      MergedKey(a, b, r); MergedKey(b, c, r); MergedKey(ab, c, r); MergedKey(a, bc, r);
    }
    ClockExtensional(Merged(ab, c), Merged(a, bc));
  }

  lemma MergeIdempotent(a: Clock)
    ensures Merged(a, a) == a
  {
  }

  lemma MergeCommutative(a: Clock, b: Clock)
    requires Positive(a) && Positive(b)
    ensures Merged(a, b) == Merged(b, a)
  {
  }
}
