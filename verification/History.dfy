/** The ground truth of a run: one log of effective local operations per replica,
    numbered by that replica's own clock entry. A state is explained by the logs
    when it is what the operations under its clock add up to. */
module Histories {
  import opened Base
  import opened TodoDocs
  import Clocks = VectorClocks

  datatype Event =
    | Added(n: nat, id: string, text: string)
    | Toggled(id: string, was: bool)
    | Deleted(id: string)

  type Logs = map<U64, seq<Event>>

  /** The counter-th operation of a replica, counting from 1. */
  datatype Dot = Dot(replica: U64, counter: nat)

  predicate InLogs(logs: Logs, e: Dot) {
    e.replica in logs && 1 <= e.counter <= |logs[e.replica]|
  }

  function EventAt(logs: Logs, e: Dot): Event
    requires InLogs(logs, e)
  {
    logs[e.replica][e.counter - 1]
  }

  /** The operations under a clock. */
  function Seen(c: Clocks.Clock): (s: set<Dot>)
    ensures forall e: Dot :: e in s <==> 1 <= e.counter <= Clocks.Get(c, e.replica)
  {
    set r, k | r in c && 1 <= k <= c[r] :: Dot(r, k)
  }

  ghost function AddedIds(logs: Logs, s: set<Dot>): set<string> {
    set e | e in s && InLogs(logs, e) && EventAt(logs, e).Added? :: EventAt(logs, e).id
  }

  ghost function DeletedIds(logs: Logs, s: set<Dot>): set<string> {
    set e | e in s && InLogs(logs, e) && EventAt(logs, e).Deleted? :: EventAt(logs, e).id
  }

  ghost function ToggledIds(logs: Logs, s: set<Dot>): set<string> {
    set e | e in s && InLogs(logs, e) && EventAt(logs, e).Toggled? :: EventAt(logs, e).id
  }

  /** No toggle ever found its flag set. */
  ghost predicate NoUntoggle(logs: Logs) {
    forall e :: InLogs(logs, e) && EventAt(logs, e).Toggled? ==> !EventAt(logs, e).was
  }

  /** No id was ever handed out twice. */
  ghost predicate UniqueIds(logs: Logs) {
    forall e, f ::
      (&& InLogs(logs, e) && InLogs(logs, f)
       && EventAt(logs, e).Added? && EventAt(logs, f).Added?
       && EventAt(logs, e).id == EventAt(logs, f).id)
      ==> e == f
  }

  ghost predicate Labelled(peers: map<U64, string>, logs: Logs, d: Doc, e: Dot) {
    InLogs(logs, e) && EventAt(logs, e).Added? ==>
      && var ev := EventAt(logs, e);
      && ev.id in d.texts && d.texts[ev.id] == ev.text
      && e.replica in peers
      && ev.id in d.creators && d.creators[ev.id] == peers[e.replica]
  }

  /** Every field but the flags is what the operations under the clock add up to. */
  ghost predicate CoreExplained(peers: map<U64, string>, logs: Logs, d: Doc) {
    var seen := Seen(d.clock);
    && Clocks.Positive(d.clock)
    && (forall e :: e in seen ==> InLogs(logs, e))
    && d.added == AddedIds(logs, seen)
    && d.removed == DeletedIds(logs, seen)
    && d.removed <= d.added
    && d.texts.Keys == d.added && d.creators.Keys == d.added && d.completed.Keys == d.added
    && (forall e :: e in seen ==> Labelled(peers, logs, d, e))
  }

  /** A set flag was toggled; without an un-toggle a toggled flag is set. */
  ghost predicate FlagsExplained(logs: Logs, d: Doc) {
    var toggled := ToggledIds(logs, Seen(d.clock));
    && toggled <= d.added
    && (forall id :: Flag(d.completed, id) ==> id in toggled)
    && (NoUntoggle(logs) ==> forall id :: id in toggled ==> Flag(d.completed, id))
  }

  ghost predicate Explains(peers: map<U64, string>, logs: Logs, d: Doc) {
    CoreExplained(peers, logs, d) && FlagsExplained(logs, d)
  }

  ghost predicate Grows(logs: Logs, logs': Logs) {
    logs.Keys == logs'.Keys && forall r :: r in logs ==> logs[r] <= logs'[r]
  }

  lemma GrownEvent(logs: Logs, logs': Logs, e: Dot)
    requires Grows(logs, logs') && InLogs(logs, e)
    ensures InLogs(logs', e) && EventAt(logs', e) == EventAt(logs, e)
  {
  }

  lemma IdsUnion(logs: Logs, s: set<Dot>, t: set<Dot>)
    ensures AddedIds(logs, s + t) == AddedIds(logs, s) + AddedIds(logs, t)
    ensures DeletedIds(logs, s + t) == DeletedIds(logs, s) + DeletedIds(logs, t)
    ensures ToggledIds(logs, s + t) == ToggledIds(logs, s) + ToggledIds(logs, t)
  {
  }

  lemma IdsMonotone(logs: Logs, s: set<Dot>, t: set<Dot>)
    requires s <= t
    ensures AddedIds(logs, s) <= AddedIds(logs, t)
    ensures DeletedIds(logs, s) <= DeletedIds(logs, t)
    ensures ToggledIds(logs, s) <= ToggledIds(logs, t)
  {
  }

  lemma IdsGrow(logs: Logs, logs': Logs, s: set<Dot>)
    requires Grows(logs, logs')
    requires forall e :: e in s ==> InLogs(logs, e)
    ensures AddedIds(logs', s) == AddedIds(logs, s)
    ensures DeletedIds(logs', s) == DeletedIds(logs, s)
    ensures ToggledIds(logs', s) == ToggledIds(logs, s)
  {
    forall e | e in s ensures InLogs(logs', e) && EventAt(logs', e) == EventAt(logs, e) {
      GrownEvent(logs, logs', e);
    }
  }

  lemma SeenMerged(a: Clocks.Clock, b: Clocks.Clock)
    ensures Seen(Clocks.Merged(a, b)) == Seen(a) + Seen(b)
  {
    forall e: Dot ensures e in Seen(Clocks.Merged(a, b)) <==> e in Seen(a) + Seen(b) {
      Clocks.MergedGet(a, b, e.replica);
    }
  }

  lemma SeenIncremented(c: Clocks.Clock, r: U64)
    requires Clocks.Get(c, r) < U64_MAX
    ensures Seen(Clocks.Incremented(c, r)) == Seen(c) + {Dot(r, Clocks.Get(c, r) + 1)}
  {
    var d := Clocks.Incremented(c, r);
    forall e: Dot ensures e in Seen(d) <==> e in Seen(c) + {Dot(r, Clocks.Get(c, r) + 1)} {
      assert Clocks.Get(d, e.replica) == if e.replica == r then Clocks.Get(c, r) + 1 else Clocks.Get(c, e.replica);
    }
  }

  lemma SeenOrdered(a: Clocks.Clock, b: Clocks.Clock)
    requires Clocks.Leq(a, b)
    ensures Seen(a) <= Seen(b)
  {
    forall e: Dot | e in Seen(a) ensures e in Seen(b) {
      assert Clocks.Get(a, e.replica) <= Clocks.Get(b, e.replica);
    }
  }

  // ----- explained states -----

  lemma GrowExplained(peers: map<U64, string>, logs: Logs, logs': Logs, d: Doc)
    requires Grows(logs, logs') && Explains(peers, logs, d)
    ensures Explains(peers, logs', d)
  {
    var seen := Seen(d.clock);
    IdsGrow(logs, logs', seen);
    forall e | e in seen ensures InLogs(logs', e) && Labelled(peers, logs', d, e) {
      GrownEvent(logs, logs', e);
      assert Labelled(peers, logs, d, e);
    }
    if NoUntoggle(logs') {
      forall e | InLogs(logs, e) && EventAt(logs, e).Toggled? ensures !EventAt(logs, e).was {
        GrownEvent(logs, logs', e);
      }
    }
  }

  /** The text and creator of an explained id come from the one event that added it. */
  lemma LabelOf(peers: map<U64, string>, logs: Logs, d: Doc, id: string) returns (e: Dot)
    requires Explains(peers, logs, d) && id in d.added
    ensures e in Seen(d.clock) && InLogs(logs, e) && EventAt(logs, e).Added? && EventAt(logs, e).id == id
    ensures e.replica in peers
    ensures id in d.texts && d.texts[id] == EventAt(logs, e).text
    ensures id in d.creators && d.creators[id] == peers[e.replica]
  {
    assert id in AddedIds(logs, Seen(d.clock));
    e :| e in Seen(d.clock) && InLogs(logs, e) && EventAt(logs, e).Added? && EventAt(logs, e).id == id;
    assert Labelled(peers, logs, d, e);
  }

  lemma ExplainedAgreeOn(peers: map<U64, string>, logs: Logs, a: Doc, b: Doc, id: string)
    requires UniqueIds(logs) && Explains(peers, logs, a) && Explains(peers, logs, b)
    requires id in a.added && id in b.added
    ensures id in a.texts && id in b.texts && a.texts[id] == b.texts[id]
    ensures id in a.creators && id in b.creators && a.creators[id] == b.creators[id]
  {
    var e := LabelOf(peers, logs, a, id);
    var f := LabelOf(peers, logs, b, id);
  }

  lemma ExplainedConsistent(peers: map<U64, string>, logs: Logs, a: Doc, b: Doc)
    requires UniqueIds(logs) && Explains(peers, logs, a) && Explains(peers, logs, b)
    ensures Consistent(a, b)
  {
    forall id | id in a.added && id in b.added
      ensures id in a.texts && id in b.texts && a.texts[id] == b.texts[id]
      ensures id in a.creators && id in b.creators && a.creators[id] == b.creators[id]
    {
      ExplainedAgreeOn(peers, logs, a, b, id);
    }
  }

  lemma MergedLabels(peers: map<U64, string>, logs: Logs, a: Doc, b: Doc, e: Dot)
    requires Consistent(a, b)
    requires Labelled(peers, logs, a, e) || Labelled(peers, logs, b, e)
    ensures Labelled(peers, logs, Merged(a, b), e)
  {
    var m := Merged(a, b);
    assert m.texts == FillIn(a.texts, b.texts) && m.creators == FillIn(a.creators, b.creators);
  }

  lemma MergedFlag(a: map<string, bool>, b: map<string, bool>, id: string)
    ensures Flag(OrFlags(a, b), id) <==> Flag(a, id) || Flag(b, id)
  {
  }

  lemma MergeFlagsExplained(logs: Logs, a: Doc, b: Doc)
    requires FlagsExplained(logs, a) && FlagsExplained(logs, b)
    ensures FlagsExplained(logs, Merged(a, b))
  {
    SeenMerged(a.clock, b.clock);
    IdsUnion(logs, Seen(a.clock), Seen(b.clock));
    forall id ensures Flag(Merged(a, b).completed, id) <==> Flag(a.completed, id) || Flag(b.completed, id) {
      MergedFlag(a.completed, b.completed, id);
    }
  }

  lemma MergeExplained(peers: map<U64, string>, logs: Logs, a: Doc, b: Doc)
    requires UniqueIds(logs) && Explains(peers, logs, a) && Explains(peers, logs, b)
    ensures Explains(peers, logs, Merged(a, b))
  {
    ExplainedConsistent(peers, logs, a, b);
    MergeCoreExplained(peers, logs, a, b);
    MergeFlagsExplained(logs, a, b);
  }

  lemma MergedFields(a: Doc, b: Doc)
    ensures var m := Merged(a, b);
            && m.added == a.added + b.added && m.removed == a.removed + b.removed
            && m.texts.Keys == a.texts.Keys + b.texts.Keys
            && m.creators.Keys == a.creators.Keys + b.creators.Keys
            && m.completed.Keys == a.completed.Keys + b.completed.Keys
            && m.clock == Clocks.Merged(a.clock, b.clock)
  {
  }

  lemma MergeCoreExplained(peers: map<U64, string>, logs: Logs, a: Doc, b: Doc)
    requires CoreExplained(peers, logs, a) && CoreExplained(peers, logs, b) && Consistent(a, b)
    ensures CoreExplained(peers, logs, Merged(a, b))
  {
    var m := Merged(a, b);
    MergedFields(a, b);
    Clocks.OperationsKeepPositive(a.clock, b.clock, 0, 0);
    SeenMerged(a.clock, b.clock);
    IdsUnion(logs, Seen(a.clock), Seen(b.clock));
    assert m.added == AddedIds(logs, Seen(m.clock));
    assert m.removed == DeletedIds(logs, Seen(m.clock));
    forall e | e in Seen(m.clock) ensures InLogs(logs, e) && Labelled(peers, logs, m, e) {
      MergedLabels(peers, logs, a, b, e);
    }
  }

  lemma LeqFromFields(a: Doc, b: Doc)
    requires a.added <= b.added && a.removed <= b.removed && Consistent(a, b) && Clocks.Leq(a.clock, b.clock)
    requires a.texts.Keys == a.added && a.creators.Keys == a.added && a.completed.Keys == a.added
    requires b.texts.Keys == b.added && b.creators.Keys == b.added && b.completed.Keys == b.added
    ensures LeqCore(a, b)
    ensures (forall id :: Flag(a.completed, id) ==> Flag(b.completed, id)) ==> Leq(a, b)
  {
    forall id | id in a.added ensures id in b.added {
    }
    if forall id :: Flag(a.completed, id) ==> Flag(b.completed, id) {
      forall id | id in a.completed ensures id in b.completed && (a.completed[id] ==> b.completed[id]) {
        assert Flag(a.completed, id) ==> Flag(b.completed, id);
      }
    }
  }

  /** The exact causal summary: a clock determines everything but the flags, and
      without an un-toggle the flags too. */
  lemma ClockSummarizes(peers: map<U64, string>, logs: Logs, a: Doc, b: Doc)
    requires UniqueIds(logs) && Explains(peers, logs, a) && Explains(peers, logs, b)
    ensures LeqCore(a, b) <==> Clocks.Leq(a.clock, b.clock)
    ensures NoUntoggle(logs) ==> (Leq(a, b) <==> Clocks.Leq(a.clock, b.clock))
  {
    if Clocks.Leq(a.clock, b.clock) {
      var sa, sb := Seen(a.clock), Seen(b.clock);
      SeenOrdered(a.clock, b.clock);
      IdsMonotone(logs, sa, sb);
      ExplainedConsistent(peers, logs, a, b);
      if NoUntoggle(logs) {
        forall id | Flag(a.completed, id) ensures Flag(b.completed, id) {
          assert id in ToggledIds(logs, sa);
        }
      }
      LeqFromFields(a, b);
    }
  }
}
