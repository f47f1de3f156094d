/** What holds at every moment of every run: any interleaving of local
    operations, notifications, pushes, duplicated, reordered and lost deliveries,
    disconnects and reconnects. */
module Runs {
  import opened Base
  import opened TodoIds
  import opened TodoDocs
  import opened TodoSnapshots
  import opened Histories
  import opened Network
  import opened Invariants
  import Clocks = VectorClocks

  // ----- induction over runs -----

  lemma StepGrowsLogs(s: System, step: Step)
    requires Enabled(s, step)
    ensures Grows(s.logs, Do(s, step).logs)
  {
    hide EventOf, After, Received, AfterAction, FlightAfter, Notified;
  }

  lemma StepKeepsConfiguration(s: System, step: Step)
    requires Enabled(s, step)
    ensures Do(s, step).peers == s.peers
    ensures Do(s, step).workers.Keys == s.workers.Keys && Do(s, step).replicas.Keys == s.replicas.Keys
  {
    hide EventOf, After, Logged, Received, AfterAction, FlightAfter, AfterNotify;
  }

  lemma GrowsTransitive(a: Logs, b: Logs, c: Logs)
    requires Grows(a, b) && Grows(b, c)
    ensures Grows(a, c)
  {
  }

  lemma StepKeepsShape(s: System, step: Step)
    requires Shape(s) && Enabled(s, step)
    ensures Shape(Do(s, step))
  {
    hide EventOf, After, Received, AfterAction, FlightAfter, PeersDistinct;
  }

  lemma {:induction false} RunShape(states: seq<System>, steps: seq<Step>, t: nat)
    requires IsRun(states, steps) && t <= |steps|
    ensures Shape(states[t])
  {
    hide Shape, Do;
    if t == 0 {
      InitInv(states[0]);
      InvShape(states[0]);
    } else {
      RunShape(states, steps, t - 1);
      StepKeepsShape(states[t - 1], steps[t - 1]);
    }
  }

  lemma InvShape(s: System)
    requires Inv(s)
    ensures Shape(s)
  {
  }

  /** The logs only grow, and the configuration stays. */
  lemma {:induction false} RunGrows(states: seq<System>, steps: seq<Step>, a: nat, b: nat)
    requires IsRun(states, steps) && a <= b <= |steps|
    ensures Grows(states[a].logs, states[b].logs)
    ensures states[b].peers == states[a].peers
    ensures states[b].workers.Keys == states[a].workers.Keys && states[b].replicas.Keys == states[a].replicas.Keys
    decreases b - a
  {
    hide Do, Enabled, Shape;
    if a < b {
      RunGrows(states, steps, a, b - 1);
      StepGrowsLogs(states[b - 1], steps[b - 1]);
      StepKeepsConfiguration(states[b - 1], steps[b - 1]);
      GrowsTransitive(states[a].logs, states[b - 1].logs, states[b].logs);
    }
  }

  lemma GrowsInRange(s: System, s': System)
    requires Grows(s.logs, s'.logs) && InRange(s')
    ensures InRange(s)
  {
  }

  lemma {:induction false} RunInv(states: seq<System>, steps: seq<Step>, t: nat)
    requires IsRun(states, steps) && t <= |steps|
    ensures Inv(states[t])
  {
    hide Inv, Do, Enabled, Grows, InRange;
    if t == 0 {
      InitInv(states[0]);
    } else {
      RunInv(states, steps, t - 1);
      RunGrows(states, steps, t, |steps|);
      GrowsInRange(states[t], states[|steps|]);
      StepKeepsInv(states[t - 1], steps[t - 1]);
    }
  }

  /** Whatever occurs at some moment is explained by the logs of every later one. */
  lemma RunExplains(states: seq<System>, steps: seq<Step>, a: nat, b: nat, d: Doc)
    requires IsRun(states, steps) && a <= b <= |steps| && Occurs(states[a], d)
    ensures Explains(states[b].peers, states[b].logs, d) && UniqueIds(states[b].logs)
  {
    hide Do, Enabled, Init, Explains, UniqueIds, Occurs, Grows, ReplicasOk, AddsOk, FlightOk, WorkersOk;
    RunInv(states, steps, a);
    RunInv(states, steps, b);
    RunGrows(states, steps, a, b);
    GrowExplained(states[a].peers, states[a].logs, states[b].logs, d);
  }

  // ----- causality -----

  /** The clock is an exact causal summary: of any two states that occur anywhere
      at any two moments, one is contained in the other (flags aside) exactly when
      its clock is. */
  lemma ClockIsExactSummary(states: seq<System>, steps: seq<Step>, a: nat, b: nat, x: Doc, y: Doc)
    requires IsRun(states, steps) && a <= |steps| && b <= |steps|
    requires Occurs(states[a], x) && Occurs(states[b], y)
    ensures LeqCore(x, y) <==> Clocks.Leq(x.clock, y.clock)
    ensures Core(x) == Core(y) <==> Clocks.Compare(x.clock, y.clock) == Some(Clocks.Equal)
  {
    hide Do, Enabled, Init, Occurs, LeqCore, Clocks.Leq, UniqueIds, Core;
    RunExplains(states, steps, a, |steps|, x);
    RunExplains(states, steps, b, |steps|, y);
    var s := states[|steps|];
    ClockSummarizes(s.peers, s.logs, x, y);
    ClockSummarizes(s.peers, s.logs, y, x);
    ExplainedPositive(s.peers, s.logs, x);
    ExplainedPositive(s.peers, s.logs, y);
    LeqAntisymmetric(x, y);
  }

  lemma ExplainedPositive(peers: map<U64, string>, logs: Logs, d: Doc)
    requires Explains(peers, logs, d)
    ensures Clocks.Positive(d.clock)
  {
  }

  /** Strong eventual consistency, flags included: if every toggle up to moment `t`
      found its flag unset, a flag is set exactly when a toggle lies under the
      clock, and states with equal clocks are the same. */
  lemma StrongEventualConsistency(states: seq<System>, steps: seq<Step>, a: nat, b: nat, t: nat, x: Doc, y: Doc)
    requires IsRun(states, steps) && a <= t <= |steps| && b <= t && NoUntoggle(states[t].logs)
    requires Occurs(states[a], x) && Occurs(states[b], y)
    ensures forall id :: Flag(x.completed, id) <==> id in ToggledIds(states[t].logs, Seen(x.clock))
    ensures Leq(x, y) <==> Clocks.Leq(x.clock, y.clock)
    ensures x == y <==> Clocks.Compare(x.clock, y.clock) == Some(Clocks.Equal)
  {
    hide Do, Enabled, Init, Occurs, Leq, LeqCore, Clocks.Leq, UniqueIds, CoreExplained;
    RunExplains(states, steps, a, t, x);
    RunExplains(states, steps, b, t, y);
    var s := states[t];
    ClockSummarizes(s.peers, s.logs, x, y);
    ClockSummarizes(s.peers, s.logs, y, x);
    ExplainedPositive(s.peers, s.logs, x);
    ExplainedPositive(s.peers, s.logs, y);
    LeqAntisymmetric(x, y);
  }

  /** The step that logged an event. */
  lemma {:induction false} StepOfEvent(states: seq<System>, steps: seq<Step>, b: nat, e: Dot) returns (t: nat)
    requires IsRun(states, steps) && b <= |steps| && InLogs(states[b].logs, e)
    ensures t < b && steps[t].Apply? && steps[t].r == e.replica && e.replica in states[t].replicas
    ensures EventOf(states[t].replicas[e.replica], steps[t].msg) == Some(EventAt(states[b].logs, e))
  {
    hide EventOf, After, Received, AfterAction, FlightAfter, Notified, PeersDistinct, InRange;
    var prior := states[b - 1];
    if InLogs(prior.logs, e) {
      t := StepOfEvent(states, steps, b - 1, e);
      StepGrowsLogs(prior, steps[b - 1]);
      GrownEvent(prior.logs, states[b].logs, e);
    } else {
      t := b - 1;
      RunShape(states, steps, t);
    }
  }

  /** Over the whole run, containment is what the clocks say, flags included. */
  ghost predicate ClocksOrderEverything(states: seq<System>) {
    forall a, b, x, y ::
      0 <= a < |states| && 0 <= b < |states| && Occurs(states[a], x) && Occurs(states[b], y)
      ==> (Leq(x, y) <==> Clocks.Leq(x.clock, y.clock))
  }

  lemma UntoggleLowers(s: Replica, msg: ClientMessage, id: string)
    requires EventOf(s, msg) == Some(Toggled(id, true))
    ensures !Leq(s.doc, After(s, msg).doc)
  {
    assert id in s.doc.completed && s.doc.completed[id];
    assert !After(s, msg).doc.completed[id];
  }

  /** Exactly the runs without an un-toggle have clocks that order everything. */
  lemma ClocksOrderEverythingIff(states: seq<System>, steps: seq<Step>)
    requires IsRun(states, steps)
    ensures ClocksOrderEverything(states) <==> NoUntoggle(states[|steps|].logs)
  {
    hide Do, Enabled, Init, InRange, Occurs, Leq, LeqCore, Clocks.Leq, EventOf, After;
    var logs := states[|steps|].logs;
    if NoUntoggle(logs) {
      forall a, b, x, y |
        0 <= a < |states| && 0 <= b < |states| && Occurs(states[a], x) && Occurs(states[b], y)
        ensures Leq(x, y) <==> Clocks.Leq(x.clock, y.clock)
      {
        StrongEventualConsistency(states, steps, a, b, |steps|, x, y);
      }
    } else {
      var e :| InLogs(logs, e) && EventAt(logs, e).Toggled? && EventAt(logs, e).was;
      var t := StepOfEvent(states, steps, |steps|, e);
      var r, msg := e.replica, steps[t].msg;
      ReplicaRises(states, steps, t, r);
      ReplicaOccurs(states[t], r);
      ReplicaOccurs(states[t + 1], r);
      UntoggleLowers(states[t].replicas[r], msg, EventAt(logs, e).id);
      AppliedReplica(states[t], r, msg);
    }
  }

  lemma AppliedReplica(s: System, r: U64, msg: ClientMessage)
    requires Enabled(s, Apply(r, msg))
    ensures r in Do(s, Apply(r, msg)).replicas
    ensures Do(s, Apply(r, msg)).replicas[r] == After(s.replicas[r], msg)
  {
    hide After, EventOf;
  }

  /** Nobody knows more operations of a replica than it performed. */
  lemma NobodyIsAhead(states: seq<System>, steps: seq<Step>, t: nat, d: Doc, r: U64)
    requires IsRun(states, steps) && t <= |steps| && Occurs(states[t], d)
    requires r in states[t].replicas
    ensures r in states[t].logs
    ensures Clocks.Get(d.clock, r) <= Clocks.Get(states[t].replicas[r].doc.clock, r) == |states[t].logs[r]|
  {
    hide Do, Enabled, Init, Occurs, Explains, UniqueIds, ReplicaOk, AddsOk, FlightOk, WorkersOk;
    RunInv(states, steps, t);
    RunExplains(states, steps, t, t, d);
    EntryWithinLog(states[t].peers, states[t].logs, d, r);
    InvAtReplica(states[t], r);
    ReplicaFacts(states[t].peers[r], r, states[t].logs[r], states[t].replicas[r]);
  }

  /** Right after an effective local operation its state is news to everyone:
      nothing that occurred before has caught up with the new clock. */
  lemma LocalOperationIsNews(states: seq<System>, steps: seq<Step>, t: nat, r: U64, msg: ClientMessage, d: Doc)
    requires IsRun(states, steps) && t < |steps| && steps[t] == Apply(r, msg)
    requires r in states[t].replicas && EventOf(states[t].replicas[r], msg).Some?
    requires Occurs(states[t], d)
    ensures r in states[t + 1].replicas
    ensures !Clocks.Leq(states[t + 1].replicas[r].doc.clock, d.clock)
    ensures Clocks.Compare(states[t].replicas[r].doc.clock, states[t + 1].replicas[r].doc.clock) == Some(Clocks.Less)
  {
    hide Occurs, EventOf, After, Explains, UniqueIds, InRange;
    RunGrows(states, steps, t, t + 1);
    var now := states[t + 1].replicas[r].doc;
    assert Occurs(states[t + 1], now) by {
      RunInv(states, steps, t + 1);
      InvAtReplica(states[t + 1], r);
    }
    var prior := states[t].replicas[r].doc;
    assert Occurs(states[t], prior) by {
      RunInv(states, steps, t);
      InvAtReplica(states[t], r);
    }
    NobodyIsAhead(states, steps, t, d, r);
    NobodyIsAhead(states, steps, t, prior, r);
    NobodyIsAhead(states, steps, t + 1, now, r);
    assert |states[t + 1].logs[r]| == |states[t].logs[r]| + 1;
    assert Clocks.Get(d.clock, r) < Clocks.Get(now.clock, r);
    assert Clocks.Get(prior.clock, r) < Clocks.Get(now.clock, r);
    ReplicaRises(states, steps, t, r);
  }

  lemma StepRises(s: System, step: Step, r: U64)
    requires Inv(s) && Enabled(s, step) && InRange(Do(s, step)) && r in s.replicas
    ensures r in Do(s, step).replicas
    ensures Clocks.Leq(s.replicas[r].doc.clock, Do(s, step).replicas[r].doc.clock)
  {
    hide Explains, UniqueIds, AddsOk, AllExplained, FlightOk, WorkersOk, ReplicasOk, AfterAction, FlightAfter, Received,
      EventOf, After, ReplicaOk;
    InvAtReplica(s, r);
    var s' := Do(s, step);
    if step.Apply? && step.r == r {
      LocalRises(s, r, step.msg);
    } else if step.Deliver? && step.f.via.dst == r {
      ReceivedRises(s.replicas[r], step.f.doc);
    }
  }

  lemma LocalRises(s: System, r: U64, msg: ClientMessage)
    requires Inv(s) && Enabled(s, Apply(r, msg)) && InRange(Applied(s, r, msg))
    ensures Clocks.Leq(s.replicas[r].doc.clock, After(s.replicas[r], msg).doc.clock)
  {
    hide Explains, UniqueIds, AddsOk, AllExplained, FlightOk, WorkersOk, ReplicasOk, EventOf, After, ReplicaOk;
    if EventOf(s.replicas[r], msg).Some? {
      assert |Applied(s, r, msg).logs[r]| == |s.logs[r]| + 1;
      var _, rep' := EventReplica(s, r, msg);
      assert Applied(s, r, msg).replicas[r] == rep';
    } else {
      LocalSteps.EffectOf(s.replicas[r], msg);
    }
  }

  lemma ReceivedRises(rep: Replica, d: Doc)
    ensures Clocks.Leq(rep.doc.clock, Received(rep, d).doc.clock)
  {
    Clocks.MergeIsLub(rep.doc.clock, d.clock, rep.doc.clock);
  }

  lemma ReplicaRises(states: seq<System>, steps: seq<Step>, t: nat, r: U64)
    requires IsRun(states, steps) && t < |steps| && r in states[t].replicas
    ensures r in states[t + 1].replicas
    ensures Clocks.Leq(states[t].replicas[r].doc.clock, states[t + 1].replicas[r].doc.clock)
  {
    hide Inv, Do, Enabled, Grows, InRange, Clocks.Leq;
    RunInv(states, steps, t);
    RunGrows(states, steps, t + 1, |steps|);
    GrowsInRange(states[t + 1], states[|steps|]);
    StepRises(states[t], steps[t], r);
  }

  /** A replica only ever gains: flags aside, its state later in the run contains
      its state now. */
  lemma {:induction false} ReplicaOnlyGains(states: seq<System>, steps: seq<Step>, a: nat, b: nat, r: U64)
    requires IsRun(states, steps) && a <= b <= |steps| && r in states[a].replicas
    ensures r in states[b].replicas
    ensures LeqCore(states[a].replicas[r].doc, states[b].replicas[r].doc)
    decreases b - a
  {
    hide Do, Enabled, Init, LeqCore, Occurs, Clocks.Leq;
    RunGrows(states, steps, a, b);
    if a == b {
      LeqReflexive(states[a].replicas[r].doc);
    } else {
      ReplicaOnlyGains(states, steps, a, b - 1, r);
      ReplicaRises(states, steps, b - 1, r);
      var x, y := states[b - 1].replicas[r].doc, states[b].replicas[r].doc;
      ReplicaOccurs(states[b - 1], r);
      ReplicaOccurs(states[b], r);
      ClockIsExactSummary(states, steps, b - 1, b, x, y);
      LeqTransitive(states[a].replicas[r].doc, x, y);
    }
  }

  lemma ReplicaOccurs(s: System, r: U64)
    requires r in s.replicas
    ensures Occurs(s, s.replicas[r].doc)
  {
  }

  // ----- ids -----

  /** Any two states that hold an id agree on its text and creator, wherever and
      whenever they occur; so merging them never has to choose. */
  lemma IdsNeverConflict(states: seq<System>, steps: seq<Step>, a: nat, b: nat, x: Doc, y: Doc)
    requires IsRun(states, steps) && a <= |steps| && b <= |steps|
    requires Occurs(states[a], x) && Occurs(states[b], y)
    ensures Consistent(x, y)
    ensures Merged(x, y) == Merged(y, x)
    ensures Leq(x, Merged(x, y)) && Leq(y, Merged(x, y))
  {
    hide Do, Enabled, Init, Occurs, Explains, UniqueIds, Consistent, Leq, LeqCore;
    RunExplains(states, steps, a, |steps|, x);
    RunExplains(states, steps, b, |steps|, y);
    var s := states[|steps|];
    ExplainedConsistent(s.peers, s.logs, x, y);
    ExplainedPositive(s.peers, s.logs, x);
    ExplainedPositive(s.peers, s.logs, y);
    MergeCommutesIff(x, y);
    MergeLeastAbove(x, y, x);
    MergeAboveRightIff(x, y);
  }

  /** What is delivered is contained, flags included. */
  lemma DeliveryContains(states: seq<System>, steps: seq<Step>, t: nat, f: Frame, again: bool)
    requires IsRun(states, steps) && t < |steps| && steps[t] == Deliver(f, again)
    ensures f.via.dst in states[t + 1].replicas && Leq(f.doc, states[t + 1].replicas[f.via.dst].doc)
  {
    hide Init, InRange, Leq, LeqCore, Merged, Consistent;
    assert Occurs(states[t], f.doc);
    ReplicaOccurs(states[t], f.via.dst);
    IdsNeverConflict(states, steps, t, t, states[t].replicas[f.via.dst].doc, f.doc);
  }

  /** What a replica was sent and received it never loses again, flags aside. */
  lemma DeliveredForGood(states: seq<System>, steps: seq<Step>, t: nat, b: nat, f: Frame, again: bool)
    requires IsRun(states, steps) && t < b <= |steps| && steps[t] == Deliver(f, again)
    ensures f.via.dst in states[b].replicas && LeqCore(f.doc, states[b].replicas[f.via.dst].doc)
  {
    hide Do, Enabled, Init, InRange, Leq, LeqCore;
    DeliveryContains(states, steps, t, f, again);
    ReplicaOnlyGains(states, steps, t + 1, b, f.via.dst);
    LeqHasCore(f.doc, states[t + 1].replicas[f.via.dst].doc);
    LeqTransitive(f.doc, states[t + 1].replicas[f.via.dst].doc, states[b].replicas[f.via.dst].doc);
  }

  /** Every id anywhere is the print of its creator and a number the creator has
      handed out; the creator itself holds all of those, and its clock has counted
      at least that many operations. */
  lemma IdsAreOwned(states: seq<System>, steps: seq<Step>, t: nat, d: Doc, id: string) returns (r: U64, n: nat)
    requires IsRun(states, steps) && t <= |steps| && Occurs(states[t], d) && id in d.added
    ensures r in states[t].replicas && id in d.creators && d.creators[id] == states[t].replicas[r].peerId
    ensures id == PrintId(states[t].replicas[r].peerId, n) && ParseId(id) == Some((d.creators[id], n))
    ensures 1 <= n <= states[t].replicas[r].nextLocalId <= Clocks.Get(states[t].replicas[r].doc.clock, r)
    ensures id in states[t].replicas[r].doc.added
    ensures id in d.texts && d.texts[id] != "" && IsTrimmed(d.texts[id])
  {
    hide Do, Enabled, Init, Occurs, UniqueIds, Explains, FlightOk, WorkersOk, ReplicasOk;
    RunInv(states, steps, t);
    var s := states[t];
    RunExplains(states, steps, t, t, d);
    var e := LabelOf(s.peers, s.logs, d, id);
    assert AddOk(s.peers, s.replicas, s.logs, e);
    r, n := e.replica, EventAt(s.logs, e).n;
    InvAtReplica(s, r);
    IdRoundTrip(id, s.peers[r], n);
  }

  /** The four keyed fields always cover the same ids, so the snapshot drops no
      item and never falls back on a default. */
  lemma FieldsCoverIds(states: seq<System>, steps: seq<Step>, t: nat, d: Doc)
    requires IsRun(states, steps) && t <= |steps| && Occurs(states[t], d)
    ensures d.texts.Keys == d.added && d.completed.Keys == d.added && d.creators.Keys == d.added
    ensures d.removed <= d.added
  {
    hide Do, Enabled, Init, Occurs, UniqueIds, AddedIds, DeletedIds, ToggledIds, Seen;
    RunExplains(states, steps, t, t, d);
  }

  /** The next id of a replica occurs nowhere, so `add` never overwrites. */
  lemma NextIdOccursNowhere(states: seq<System>, steps: seq<Step>, t: nat, r: U64, d: Doc)
    requires IsRun(states, steps) && t <= |steps| && Occurs(states[t], d)
    requires r in states[t].replicas && states[t].replicas[r].nextLocalId < U64_MAX
    ensures var id := PrintId(states[t].replicas[r].peerId, WrappingAdd(states[t].replicas[r].nextLocalId, 1));
            id !in d.added && id !in d.removed && id !in d.texts && id !in d.creators && id !in d.completed
  {
    hide Do, Enabled, Init, Occurs, Explains, ReplicaOk, UniqueIds, ReplicasOk, AddsOk, FlightOk, WorkersOk, AllExplained,
      InRange, PrintId, ParseId, IsTrimmed;
    var s := states[t];
    var n := s.replicas[r].nextLocalId + 1;
    var id := PrintId(s.replicas[r].peerId, n);
    FieldsCoverIds(states, steps, t, d);
    RunInv(states, steps, t);
    InvAtReplica(s, r);
    ReplicaFacts(s.peers[r], r, s.logs[r], s.replicas[r]);
    if id in d.added {
      var p, m := IdsAreOwned(states, steps, t, d, id);
      InvAtReplica(s, p);
      ReplicaFacts(s.peers[p], p, s.logs[p], s.replicas[p]);
      PrintIdInjective(s.replicas[p].peerId, m, s.replicas[r].peerId, n);
    }
  }

  // ----- what is shown -----

  /** The list shown by any replica at any moment: one item for every id added and
      not removed, carrying its text, flag and creator. */
  lemma SnapshotIsComplete(states: seq<System>, steps: seq<Step>, t: nat, r: U64, todos: seq<TodoItem>)
    requires IsRun(states, steps) && t <= |steps| && r in states[t].replicas
    requires IsListing(states[t].replicas[r], todos)
    ensures var d := states[t].replicas[r].doc;
            && |todos| == |d.added| - |d.removed|
            && (forall id :: id in Ids(todos) <==> id in d.added && id !in d.removed)
            && (forall i :: 0 <= i < |todos| ==>
                              var id := todos[i].id;
                              && id in d.texts && id in d.completed && id in d.creators
                              && todos[i] == TodoItem(id, d.texts[id], d.completed[id], d.creators[id]))
  {
    hide Do, Enabled, Init, Occurs;
    var s := states[t].replicas[r];
    ReplicaOccurs(states[t], r);
    FieldsCoverIds(states, steps, t, s.doc);
    ListingSize(s, todos);
    assert Listed(s) == s.doc.added - s.doc.removed;
    assert s.doc.added == Listed(s) + s.doc.removed;
    forall id ensures id in Ids(todos) <==> id in Listed(s) {
      IdsElements(todos, id);
    }
  }

  /** Replicas whose replicated fields are equal show the identical list. */
  lemma EqualStatesShowEqualLists(states: seq<System>, steps: seq<Step>, a: nat, b: nat, p: U64, q: U64,
                                  xs: seq<TodoItem>, ys: seq<TodoItem>)
    requires IsRun(states, steps) && a <= |steps| && b <= |steps|
    requires p in states[a].replicas && q in states[b].replicas
    requires states[a].replicas[p].doc == states[b].replicas[q].doc
    requires IsListing(states[a].replicas[p], xs) && IsListing(states[b].replicas[q], ys)
    ensures xs == ys
  {
    hide Do, Enabled, Init, Occurs;
    ReplicaOccurs(states[a], p);
    FieldsCoverIds(states, steps, a, states[a].replicas[p].doc);
    ListingUnique(states[a].replicas[p], xs, states[b].replicas[q], ys);
  }

  predicate Visible(d: Doc, id: string) {
    id in d.added && id !in d.removed
  }

  /** Tombstones are final: at each replica an id is visible over one contiguous
      stretch of the run, and once removed it never shows again. */
  lemma TombstonesAreFinal(states: seq<System>, steps: seq<Step>, a: nat, b: nat, c: nat, r: U64, id: string)
    requires IsRun(states, steps) && a <= b <= c <= |steps| && r in states[a].replicas
    ensures r in states[b].replicas && r in states[c].replicas
    ensures Visible(states[a].replicas[r].doc, id) && Visible(states[c].replicas[r].doc, id)
            ==> Visible(states[b].replicas[r].doc, id)
    ensures id in states[b].replicas[r].doc.removed ==> !Visible(states[c].replicas[r].doc, id)
    ensures Visible(states[a].replicas[r].doc, id) && !Visible(states[b].replicas[r].doc, id)
            ==> !Visible(states[c].replicas[r].doc, id)
  {
    hide Do, Enabled, Init;
    ReplicaOnlyGains(states, steps, a, b, r);
    ReplicaOnlyGains(states, steps, b, c, r);
  }
}
