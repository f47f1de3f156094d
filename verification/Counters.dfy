/** crates/crdt-core/src/counter.rs and crates/crdt-core/src/pn_counter.rs */
module Counters {
  import opened Base

  type Counts = map<U64, U64>

  function Slot(m: map<U64, nat>, r: U64): nat {
    if r in m then m[r] else 0
  }

  // ----- sums over slots, independent of any visiting order -----

  ghost function SumOver(s: set<U64>, m: map<U64, nat>): nat {
    if s == {} then 0 else
      var k :| k in s;
      Slot(m, k) + SumOver(s - {k}, m)
  }

  ghost function Sum(m: map<U64, nat>): nat {
    SumOver(m.Keys, m)
  }

  lemma {:induction false} SumOverPick(s: set<U64>, m: map<U64, nat>, k: U64)
    requires k in s
    ensures SumOver(s, m) == Slot(m, k) + SumOver(s - {k}, m)
    decreases s
  {
    var j :| j in s && SumOver(s, m) == Slot(m, j) + SumOver(s - {j}, m);
    if j != k {
      SumOverPick(s - {j}, m, k);
      SumOverPick(s - {k}, m, j);
      assert s - {j} - {k} == s - {k} - {j};
    }
  }

  /** Slots that hold zero do not matter. */
  lemma {:induction false} SumOverGrow(s: set<U64>, t: set<U64>, m: map<U64, nat>)
    requires s <= t
    requires forall k :: k in t - s ==> Slot(m, k) == 0
    ensures SumOver(s, m) == SumOver(t, m)
    decreases t
  {
    if k :| k in t - s {
      SumOverPick(t, m, k);
      SumOverGrow(s, t - {k}, m);
    } else {
      forall k | k in t ensures k in s {
        assert k !in t - s;
      }
      assert s == t;
    }
  }

  /** A pointwise smaller map has a smaller sum, and equality of the sums
      means equality of every slot. */
  lemma {:induction false} SumOverMonotone(s: set<U64>, a: map<U64, nat>, b: map<U64, nat>)
    requires forall k :: k in s ==> Slot(a, k) <= Slot(b, k)
    ensures SumOver(s, a) <= SumOver(s, b)
    ensures SumOver(s, a) == SumOver(s, b) <==> forall k :: k in s ==> Slot(a, k) == Slot(b, k)
    decreases s
  {
    if k :| k in s {
      SumOverPick(s, a, k);
      SumOverPick(s, b, k);
      SumOverMonotone(s - {k}, a, b);
      if SumOver(s, a) == SumOver(s, b) {
        forall j | j in s ensures Slot(a, j) == Slot(b, j) {
          if j != k {
            assert j in s - {k};
          }
        }
      }
    }
  }

  lemma {:induction false} SumOverAdd(s: set<U64>, a: map<U64, nat>, b: map<U64, nat>, c: map<U64, nat>, d: map<U64, nat>)
    requires forall k :: k in s ==> Slot(a, k) + Slot(b, k) == Slot(c, k) + Slot(d, k)
    ensures SumOver(s, a) + SumOver(s, b) == SumOver(s, c) + SumOver(s, d)
    decreases s
  {
    if k :| k in s {
      SumOverPick(s, a, k);
      SumOverPick(s, b, k);
      SumOverPick(s, c, k);
      SumOverPick(s, d, k);
      SumOverAdd(s - {k}, a, b, c, d);
    }
  }

  // ----- what the operations do -----

  function Increased(m: Counts, r: U64, n: U64): Counts {
    m[r := WrappingAdd(Slot(m, r), n)]
  }

  function Merged(a: Counts, b: Counts): Counts {
    map r | r in a.Keys + b.Keys :: Max(Slot(a, r), Slot(b, r))
  }

  class GCounter {
    var counts: Counts

    constructor ()
      ensures counts == map[]
    {
      counts := map[];
    }

    method Increment(replica: U64, n: U64)
      modifies this
      ensures counts == Increased(old(counts), replica, n)
    {
      if replica !in counts {
        counts := counts[replica := 0];
      }
      counts := counts[replica := WrappingAdd(counts[replica], n)];
    }

    /** Sums the slots in an arbitrary order, wrapping like u64 addition does. */
    method Value() returns (v: U64)
      ensures v == Sum(counts) % TWO_TO_THE_64
    {
      v := 0;
      var todo := counts.Keys;
      while todo != {}
        invariant todo <= counts.Keys
        invariant (v + SumOver(todo, counts)) % TWO_TO_THE_64 == Sum(counts) % TWO_TO_THE_64
        decreases todo
      {
        var k :| k in todo;
        SumOverPick(todo, counts, k);
        WrapsAlike(v, counts[k], SumOver(todo - {k}, counts));
        v := WrappingAdd(v, counts[k]);
        todo := todo - {k};
      }
    }

    method Merge(other: GCounter)
      requires this != other
      modifies this
      ensures counts == Merged(old(counts), other.counts)
    {
      var todo := other.counts.Keys;
      while todo != {}
        invariant todo <= other.counts.Keys
        invariant counts == Merged(old(counts), other.counts - todo)
        decreases todo
      {
        var k :| k in todo;
        if k !in counts {
          counts := counts[k := 0];
        }
        counts := counts[k := Max(counts[k], other.counts[k])];
        MergedStep(old(counts), other.counts, todo, k);
        todo := todo - {k};
      }
      assert other.counts - {} == other.counts;
    }
  }

  /** Wrapping early or late makes no difference. */
  lemma WrapsAlike(v: U64, x: U64, rest: nat)
    ensures (WrappingAdd(v, x) + rest) % TWO_TO_THE_64 == (v + (x + rest)) % TWO_TO_THE_64
  {
    var w := WrappingAdd(v, x);
    assert v + x == w || v + x == w + TWO_TO_THE_64;
  }

  /** Two grow-only counters; the objects are distinct, as owned struct fields are. */
  class PNCounter {
    const increments: GCounter
    const decrements: GCounter

    ghost predicate Valid() {
      increments != decrements
    }

    constructor ()
      ensures Valid() && fresh(increments) && fresh(decrements)
      ensures increments.counts == map[] && decrements.counts == map[]
    {
      increments := new GCounter();
      decrements := new GCounter();
    }

    method Increment(replica: U64, n: U64)
      requires Valid()
      modifies increments
      ensures increments.counts == Increased(old(increments.counts), replica, n)
    {
      increments.Increment(replica, n);
    }

    method Decrement(replica: U64, n: U64)
      requires Valid()
      modifies decrements
      ensures decrements.counts == Increased(old(decrements.counts), replica, n)
    {
      decrements.Increment(replica, n);
    }

    /** The difference of two u64 values always fits the i128 the source returns. */
    method Value() returns (v: int)
      ensures v == Sum(increments.counts) % TWO_TO_THE_64 - Sum(decrements.counts) % TWO_TO_THE_64
      ensures -TWO_TO_THE_64 < v < TWO_TO_THE_64
    {
      var p: int := increments.Value();
      var n: int := decrements.Value();
      v := p - n;
    }

    method Merge(other: PNCounter)
      requires Valid() && {increments, decrements} !! {other.increments, other.decrements}
      modifies increments, decrements
      ensures increments.counts == Merged(old(increments.counts), other.increments.counts)
      ensures decrements.counts == Merged(old(decrements.counts), other.decrements.counts)
    {
      increments.Merge(other.increments);
      decrements.Merge(other.decrements);
    }
  }

  lemma MergedStep(a: Counts, b: Counts, todo: set<U64>, k: U64)
    requires k in todo && todo <= b.Keys
    ensures var m := Merged(a, b - todo);
            Merged(a, b - (todo - {k})) == m[k := Max(Slot(m, k), b[k])]
  {
    var x := Merged(a, b - (todo - {k}));
    var m := Merged(a, b - todo);
    var y := m[k := Max(Slot(m, k), b[k])];
    forall r: U64 ensures r in x <==> r in y {
    }
    forall r: U64 | r in x ensures x[r] == y[r] {
    }
  }

  // ----- merge and the sum -----

  /** What both sides counted: the elementwise minimum. */
  function Overlap(a: Counts, b: Counts): Counts {
    map r | r in a && r in b :: if a[r] < b[r] then a[r] else b[r]
  }

  /** Inclusion and exclusion: merging loses exactly what both had counted. */
  lemma MergeConservesSum(a: Counts, b: Counts)
    ensures Sum(Merged(a, b)) + Sum(Overlap(a, b)) == Sum(a) + Sum(b)
  {
    var s := a.Keys + b.Keys;
    SumOverGrow(a.Keys, s, a);
    SumOverGrow(b.Keys, s, b);
    SumOverGrow(Overlap(a, b).Keys, s, Overlap(a, b));
    assert Merged(a, b).Keys == s;
    SumOverAdd(s, Merged(a, b), Overlap(a, b), a, b);
  }

  ghost predicate DisjointSlots(a: Counts, b: Counts) {
    forall r: U64 :: Slot(a, r) == 0 || Slot(b, r) == 0
  }

  /** The merged sum lies between the larger sum and the total; it is the total
      exactly when no replica was counted on both sides. */
  lemma MergeSumBounds(a: Counts, b: Counts)
    ensures Sum(a) <= Sum(Merged(a, b)) && Sum(b) <= Sum(Merged(a, b))
    ensures Sum(Merged(a, b)) <= Sum(a) + Sum(b)
    ensures Sum(Merged(a, b)) == Sum(a) + Sum(b) <==> DisjointSlots(a, b)
  {
    MergeConservesSum(a, b);
    var s := a.Keys + b.Keys;
    SumOverGrow(a.Keys, s, a);
    SumOverGrow(b.Keys, s, b);
    assert Merged(a, b).Keys == s;
    SumOverMonotone(s, a, Merged(a, b));
    SumOverMonotone(s, b, Merged(a, b));
    var o := Overlap(a, b);
    var none: map<U64, nat> := map[];
    SumOverMonotone(o.Keys, none, o);
    ZeroSum(o.Keys, none);
    if forall k :: k in o.Keys ==> Slot(none, k) == Slot(o, k) {
      forall r: U64 ensures Slot(a, r) == 0 || Slot(b, r) == 0 {
        if r in o {
          assert Slot(none, r) == Slot(o, r);
        }
      }
    }
  }

  lemma {:induction false} ZeroSum(s: set<U64>, m: map<U64, nat>)
    requires forall k :: k in s ==> Slot(m, k) == 0
    ensures SumOver(s, m) == 0
    decreases s
  {
    if k :| k in s {
      SumOverPick(s, m, k);
      ZeroSum(s - {k}, m);
    }
  }
}

/** Replicas that each increment their own slot and exchange copies of their
    counters, with delay, reordering, duplication and loss. */
module CounterRuns {
  import opened Base
  import opened Counters

  /** `totals` is the ground truth: all that each replica was ever told to add. */
  datatype Net = Net(states: map<U64, Counts>, flight: set<Counts>, totals: map<U64, nat>)

  datatype Step =
    | Increment(r: U64, n: U64)
    | Send(r: U64)
    | Deliver(r: U64, copy: Counts)
    | Lose(lost: set<Counts>)
    | Stutter

  ghost predicate Init(s: Net) {
    && s.states.Keys == s.totals.Keys
    && (forall r :: r in s.states ==> s.states[r] == map[] && s.totals[r] == 0)
    && s.flight == {}
  }

  predicate Enabled(s: Net, step: Step) {
    match step
    case Increment(r, n) => r in s.states && r in s.totals
    case Send(r) => r in s.states
    case Deliver(r, copy) => r in s.states && copy in s.flight
    case Lose(lost) => true
    case Stutter => true
  }

  function Do(s: Net, step: Step): Net
    requires Enabled(s, step)
  {
    match step
    case Increment(r, n) =>
      s.(states := s.states[r := Increased(s.states[r], r, n)], totals := s.totals[r := s.totals[r] + n])
    case Send(r) => s.(flight := s.flight + {s.states[r]})
    case Deliver(r, copy) => s.(states := s.states[r := Merged(s.states[r], copy)])
    case Lose(lost) => s.(flight := s.flight - lost)
    case Stutter => s
  }

  ghost predicate IsRun(states: seq<Net>, steps: seq<Step>) {
    && |states| == |steps| + 1
    && Init(states[0])
    && forall t :: 0 <= t < |steps| ==> Enabled(states[t], steps[t]) && states[t + 1] == Do(states[t], steps[t])
  }

  ghost predicate Occurs(s: Net, c: Counts) {
    c in s.flight || exists r :: r in s.states && s.states[r] == c
  }

  /** `c` credits nobody with more than `totals` does. */
  ghost predicate Within(c: Counts, totals: map<U64, nat>) {
    c.Keys <= totals.Keys && forall k: U64 :: Slot(c, k) <= Slot(totals, k)
  }

  ghost predicate Inv(s: Net) {
    && s.states.Keys == s.totals.Keys
    && (forall r :: r in s.states ==> Slot(s.states[r], r) == s.totals[r])
    && (forall c: Counts :: Occurs(s, c) ==> Within(c, s.totals))
  }

  lemma SlotWithinSum(m: map<U64, nat>, r: U64)
    ensures Slot(m, r) <= Sum(m)
  {
    if r in m {
      SumOverPick(m.Keys, m, r);
    }
  }

  lemma IncrementKeepsInv(s: Net, r: U64, n: U64)
    requires Inv(s) && r in s.states && Sum(s.totals[r := s.totals[r] + n]) <= U64_MAX
    ensures Inv(Do(s, Increment(r, n)))
  {
    var s' := Do(s, Increment(r, n));
    SlotWithinSum(s'.totals, r);
    assert Occurs(s, s.states[r]);
    var c' := Increased(s.states[r], r, n);
    assert Slot(c', r) == s'.totals[r];
    forall k: U64 ensures Slot(c', k) <= Slot(s'.totals, k) {
      assert Slot(s.states[r], k) <= Slot(s.totals, k);
    }
    assert Within(c', s'.totals);
    forall c: Counts | Occurs(s', c) ensures Within(c, s'.totals) {
      if c != c' {
        assert Occurs(s, c);
        forall k: U64 ensures Slot(c, k) <= Slot(s'.totals, k) {
          assert Slot(c, k) <= Slot(s.totals, k);
        }
      }
    }
  }

  lemma DeliverKeepsInv(s: Net, r: U64, copy: Counts)
    requires Inv(s) && r in s.states && copy in s.flight
    ensures Inv(Do(s, Deliver(r, copy)))
  {
    var s' := Do(s, Deliver(r, copy));
    assert Occurs(s, s.states[r]) && Occurs(s, copy);
    var c' := Merged(s.states[r], copy);
    assert Slot(copy, r) <= Slot(s.totals, r);
    assert Within(c', s.totals);
    forall c: Counts | Occurs(s', c) ensures Within(c, s.totals) {
      assert c == c' || Occurs(s, c);
    }
  }

  lemma StepKeepsInv(s: Net, step: Step)
    requires Inv(s) && Enabled(s, step) && Sum(Do(s, step).totals) <= U64_MAX
    ensures Inv(Do(s, step))
  {
    match step
    case Increment(r, n) => IncrementKeepsInv(s, r, n);
    case Deliver(r, copy) => DeliverKeepsInv(s, r, copy);
    case Send(r) =>
      forall c: Counts | Occurs(Do(s, step), c) ensures Occurs(s, c) {
      }
    case _ =>
      forall c: Counts | Occurs(Do(s, step), c) ensures Occurs(s, c) {
      }
  }

  lemma StepGrowsTotals(s: Net, step: Step)
    requires Enabled(s, step)
    ensures Sum(s.totals) <= Sum(Do(s, step).totals)
  {
    var s' := Do(s, step);
    assert s'.totals.Keys == s.totals.Keys;
    SumOverMonotone(s.totals.Keys, s.totals, s'.totals);
  }

  lemma {:induction false} TotalsGrow(states: seq<Net>, steps: seq<Step>, t: nat)
    requires IsRun(states, steps) && t <= |steps|
    ensures Sum(states[t].totals) <= Sum(states[|steps|].totals)
    decreases |steps| - t
  {
    if t < |steps| {
      StepGrowsTotals(states[t], steps[t]);
      TotalsGrow(states, steps, t + 1);
    }
  }

  lemma {:induction false} RunKeepsInv(states: seq<Net>, steps: seq<Step>, t: nat)
    requires IsRun(states, steps) && t <= |steps|
    requires Sum(states[|steps|].totals) <= U64_MAX
    ensures Inv(states[t])
  {
    if t > 0 {
      RunKeepsInv(states, steps, t - 1);
      TotalsGrow(states, steps, t);
      StepKeepsInv(states[t - 1], steps[t - 1]);
    }
  }

  /** No replica is ever credited with more than it counted, no sum overflows a
      u64, and a counter shows the exact total just when it has caught up with
      every replica. */
  lemma CountersConserve(states: seq<Net>, steps: seq<Step>, t: nat, c: Counts)
    requires IsRun(states, steps) && t <= |steps|
    requires Sum(states[|steps|].totals) <= U64_MAX
    requires Occurs(states[t], c)
    ensures forall r: U64 :: Slot(c, r) <= Slot(states[t].totals, r)
    ensures Sum(c) <= Sum(states[t].totals) <= U64_MAX
    ensures Sum(c) == Sum(states[t].totals) <==> forall r: U64 :: Slot(c, r) == Slot(states[t].totals, r)
  {
    RunKeepsInv(states, steps, t);
    TotalsGrow(states, steps, t);
    var totals := states[t].totals;
    SumOverGrow(c.Keys, totals.Keys, c);
    SumOverMonotone(totals.Keys, c, totals);
    if Sum(c) == Sum(totals) {
      forall r: U64 ensures Slot(c, r) == Slot(totals, r) {
        if r !in totals {
          assert Slot(c, r) <= Slot(totals, r);
        }
      }
    }
  }

  ghost predicate SameSlots(a: Counts, b: Counts) {
    forall k: U64 :: Slot(a, k) == Slot(b, k)
  }

  /** Replicas that agree slot by slot show the exact total. */
  lemma AgreementIsExact(states: seq<Net>, steps: seq<Step>, t: nat, c: Counts)
    requires IsRun(states, steps) && t <= |steps|
    requires Sum(states[|steps|].totals) <= U64_MAX
    requires Occurs(states[t], c)
    requires forall r :: r in states[t].states ==> SameSlots(states[t].states[r], c)
    ensures Sum(c) == Sum(states[t].totals)
  {
    CountersConserve(states, steps, t, c);
    RunKeepsInv(states, steps, t);
    var s := states[t];
    forall k: U64 ensures Slot(c, k) == Slot(s.totals, k) {
      if k in s.states {
        assert Slot(s.states[k], k) == Slot(c, k);
      } else {
        assert Slot(c, k) <= Slot(s.totals, k);
      }
    }
  }

  // ----- PNCounter: its runs are two runs of GCounter side by side -----

  datatype PN = PN(inc: Counts, dec: Counts)

  datatype PNNet = PNNet(states: map<U64, PN>, flight: set<PN>, incTotals: map<U64, nat>, decTotals: map<U64, nat>)

  datatype PNStep =
    | PNIncrement(r: U64, n: U64)
    | PNDecrement(r: U64, n: U64)
    | PNSend(r: U64)
    | PNDeliver(r: U64, copy: PN)
    | PNLose(lost: set<PN>)

  function PNMerged(a: PN, b: PN): PN {
    PN(Merged(a.inc, b.inc), Merged(a.dec, b.dec))
  }

  ghost predicate PNInit(s: PNNet) {
    && s.states.Keys == s.incTotals.Keys == s.decTotals.Keys
    && (forall r :: r in s.states ==> s.states[r] == PN(map[], map[]) && s.incTotals[r] == 0 && s.decTotals[r] == 0)
    && s.flight == {}
  }

  predicate PNEnabled(s: PNNet, step: PNStep) {
    match step
    case PNIncrement(r, n) => r in s.states && r in s.incTotals
    case PNDecrement(r, n) => r in s.states && r in s.decTotals
    case PNSend(r) => r in s.states
    case PNDeliver(r, copy) => r in s.states && copy in s.flight
    case PNLose(lost) => true
  }

  function PNDo(s: PNNet, step: PNStep): PNNet
    requires PNEnabled(s, step)
  {
    match step
    case PNIncrement(r, n) =>
      s.(states := s.states[r := s.states[r].(inc := Increased(s.states[r].inc, r, n))],
         incTotals := s.incTotals[r := s.incTotals[r] + n])
    case PNDecrement(r, n) =>
      s.(states := s.states[r := s.states[r].(dec := Increased(s.states[r].dec, r, n))],
         decTotals := s.decTotals[r := s.decTotals[r] + n])
    case PNSend(r) => s.(flight := s.flight + {s.states[r]})
    case PNDeliver(r, copy) => s.(states := s.states[r := PNMerged(s.states[r], copy)])
    case PNLose(lost) => s.(flight := s.flight - lost)
  }

  ghost predicate IsPNRun(states: seq<PNNet>, steps: seq<PNStep>) {
    && |states| == |steps| + 1
    && PNInit(states[0])
    && forall t :: 0 <= t < |steps| ==> PNEnabled(states[t], steps[t]) && states[t + 1] == PNDo(states[t], steps[t])
  }

  ghost predicate PNOccurs(s: PNNet, c: PN) {
    c in s.flight || exists r :: r in s.states && s.states[r] == c
  }

  function Incs(m: map<U64, PN>): map<U64, Counts> {
    map r | r in m :: m[r].inc
  }

  function Decs(m: map<U64, PN>): map<U64, Counts> {
    map r | r in m :: m[r].dec
  }

  function IncCopies(f: set<PN>): set<Counts> {
    set p | p in f :: p.inc
  }

  function DecCopies(f: set<PN>): set<Counts> {
    set p | p in f :: p.dec
  }

  function IncSide(s: PNNet): Net {
    Net(Incs(s.states), IncCopies(s.flight), s.incTotals)
  }

  function DecSide(s: PNNet): Net {
    Net(Decs(s.states), DecCopies(s.flight), s.decTotals)
  }

  lemma IncsOfUpdate(m: map<U64, PN>, r: U64, p: PN)
    ensures Incs(m[r := p]) == Incs(m)[r := p.inc]
    ensures r in m && p.inc == m[r].inc ==> Incs(m[r := p]) == Incs(m)
  {
  }

  lemma DecsOfUpdate(m: map<U64, PN>, r: U64, p: PN)
    ensures Decs(m[r := p]) == Decs(m)[r := p.dec]
    ensures r in m && p.dec == m[r].dec ==> Decs(m[r := p]) == Decs(m)
  {
  }

  lemma SidesOfFlight(f: set<PN>, p: PN, lost: set<PN>)
    ensures IncCopies(f + {p}) == IncCopies(f) + {p.inc}
    ensures DecCopies(f + {p}) == DecCopies(f) + {p.dec}
    ensures IncCopies(f - lost) == IncCopies(f) - (IncCopies(f) - IncCopies(f - lost))
    ensures DecCopies(f - lost) == DecCopies(f) - (DecCopies(f) - DecCopies(f - lost))
  {
    assert IncCopies(f - lost) <= IncCopies(f);
    assert DecCopies(f - lost) <= DecCopies(f);
  }

  function IncStep(s: PNNet, step: PNStep): Step
    requires PNEnabled(s, step)
  {
    match step
    case PNIncrement(r, n) => Increment(r, n)
    case PNDecrement(r, n) => Stutter
    case PNSend(r) => Send(r)
    case PNDeliver(r, copy) => Deliver(r, copy.inc)
    case PNLose(lost) => Lose(IncSide(s).flight - IncSide(PNDo(s, step)).flight)
  }

  function DecStep(s: PNNet, step: PNStep): Step
    requires PNEnabled(s, step)
  {
    match step
    case PNIncrement(r, n) => Stutter
    case PNDecrement(r, n) => Increment(r, n)
    case PNSend(r) => Send(r)
    case PNDeliver(r, copy) => Deliver(r, copy.dec)
    case PNLose(lost) => Lose(DecSide(s).flight - DecSide(PNDo(s, step)).flight)
  }

  lemma IncStepProjects(s: PNNet, step: PNStep)
    requires PNEnabled(s, step)
    ensures Enabled(IncSide(s), IncStep(s, step))
    ensures IncSide(PNDo(s, step)) == Do(IncSide(s), IncStep(s, step))
  {
    hide Increased, Merged, Decs, DecCopies;
    match step
    case PNSend(r) => SidesOfFlight(s.flight, s.states[r], {});
    case PNLose(lost) => SidesOfFlight(s.flight, PN(map[], map[]), lost);
    case PNIncrement(r, n) => IncsOfUpdate(s.states, r, s.states[r].(inc := Increased(s.states[r].inc, r, n)));
    case PNDecrement(r, n) => IncsOfUpdate(s.states, r, s.states[r].(dec := Increased(s.states[r].dec, r, n)));
    case PNDeliver(r, copy) => IncsOfUpdate(s.states, r, PNMerged(s.states[r], copy));
  }

  lemma DecStepProjects(s: PNNet, step: PNStep)
    requires PNEnabled(s, step)
    ensures Enabled(DecSide(s), DecStep(s, step))
    ensures DecSide(PNDo(s, step)) == Do(DecSide(s), DecStep(s, step))
  {
    hide Increased, Merged, Incs, IncCopies;
    match step
    case PNSend(r) => SidesOfFlight(s.flight, s.states[r], {});
    case PNLose(lost) => SidesOfFlight(s.flight, PN(map[], map[]), lost);
    case PNIncrement(r, n) => DecsOfUpdate(s.states, r, s.states[r].(inc := Increased(s.states[r].inc, r, n)));
    case PNDecrement(r, n) => DecsOfUpdate(s.states, r, s.states[r].(dec := Increased(s.states[r].dec, r, n)));
    case PNDeliver(r, copy) => DecsOfUpdate(s.states, r, PNMerged(s.states[r], copy));
  }

  /** One step of the pair is one step of each side. */
  lemma PNStepProjects(s: PNNet, step: PNStep)
    requires PNEnabled(s, step)
    ensures Enabled(IncSide(s), IncStep(s, step))
    ensures IncSide(PNDo(s, step)) == Do(IncSide(s), IncStep(s, step))
    ensures Enabled(DecSide(s), DecStep(s, step))
    ensures DecSide(PNDo(s, step)) == Do(DecSide(s), DecStep(s, step))
  {
    hide IncSide, DecSide, IncStep, DecStep, Do, PNDo, Enabled;
    IncStepProjects(s, step);
    DecStepProjects(s, step);
  }

  ghost function IncRun(states: seq<PNNet>): seq<Net> {
    seq(|states|, t requires 0 <= t < |states| => IncSide(states[t]))
  }

  ghost function DecRun(states: seq<PNNet>): seq<Net> {
    seq(|states|, t requires 0 <= t < |states| => DecSide(states[t]))
  }

  ghost function IncSteps(states: seq<PNNet>, steps: seq<PNStep>): seq<Step>
    requires IsPNRun(states, steps)
  {
    seq(|steps|, t requires 0 <= t < |steps| => IncStep(states[t], steps[t]))
  }

  ghost function DecSteps(states: seq<PNNet>, steps: seq<PNStep>): seq<Step>
    requires IsPNRun(states, steps)
  {
    seq(|steps|, t requires 0 <= t < |steps| => DecStep(states[t], steps[t]))
  }

  /** A run of the pair is a run of each side. */
  lemma PNRunProjects(states: seq<PNNet>, steps: seq<PNStep>)
    requires IsPNRun(states, steps)
    ensures IsRun(IncRun(states), IncSteps(states, steps))
    ensures IsRun(DecRun(states), DecSteps(states, steps))
  {
    forall t | 0 <= t < |steps|
      ensures Enabled(IncSide(states[t]), IncStep(states[t], steps[t]))
      ensures IncSide(states[t + 1]) == Do(IncSide(states[t]), IncStep(states[t], steps[t]))
      ensures Enabled(DecSide(states[t]), DecStep(states[t], steps[t]))
      ensures DecSide(states[t + 1]) == Do(DecSide(states[t]), DecStep(states[t], steps[t]))
    {
      PNStepProjects(states[t], steps[t]);
    }
  }

  /** Every replica holds what `c` holds, slot by slot and on both sides. */
  ghost predicate PNAgrees(s: PNNet, c: PN) {
    forall r :: r in s.states ==> SameSlots(s.states[r].inc, c.inc) && SameSlots(s.states[r].dec, c.dec)
  }

  /** Neither side of a PNCounter ever shows more than was counted, or overflows;
      once the replicas agree slot by slot its value is total increments minus
      total decrements. */
  lemma PNCountersConserve(states: seq<PNNet>, steps: seq<PNStep>, t: nat, c: PN)
    requires IsPNRun(states, steps) && t <= |steps|
    requires Sum(states[|steps|].incTotals) <= U64_MAX && Sum(states[|steps|].decTotals) <= U64_MAX
    requires PNOccurs(states[t], c)
    ensures Sum(c.inc) <= Sum(states[t].incTotals) <= U64_MAX
    ensures Sum(c.dec) <= Sum(states[t].decTotals) <= U64_MAX
    ensures PNAgrees(states[t], c) ==>
              Sum(c.inc) % TWO_TO_THE_64 - Sum(c.dec) % TWO_TO_THE_64
              == Sum(states[t].incTotals) - Sum(states[t].decTotals)
  {
    PNRunProjects(states, steps);
    var incs, incSteps := IncRun(states), IncSteps(states, steps);
    var decs, decSteps := DecRun(states), DecSteps(states, steps);
    SideOccurs(states[t], c);
    CountersConserve(incs, incSteps, t, c.inc);
    CountersConserve(decs, decSteps, t, c.dec);
    if PNAgrees(states[t], c) {
      forall r | r in incs[t].states ensures SameSlots(incs[t].states[r], c.inc) {
      }
      AgreementIsExact(incs, incSteps, t, c.inc);
      forall r | r in decs[t].states ensures SameSlots(decs[t].states[r], c.dec) {
      }
      AgreementIsExact(decs, decSteps, t, c.dec);
    }
  }

  lemma SideOccurs(s: PNNet, c: PN)
    requires PNOccurs(s, c)
    ensures Occurs(IncSide(s), c.inc) && Occurs(DecSide(s), c.dec)
  {
    if c !in s.flight {
      var r :| r in s.states && s.states[r] == c;
      assert IncSide(s).states[r] == c.inc && DecSide(s).states[r] == c.dec;
    }
  }
}
