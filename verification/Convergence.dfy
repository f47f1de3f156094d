/** Multi-hop convergence: on a strongly connected peer graph of n replicas,
    n - 1 rounds of anti-entropy pushes bring every replica to the join of all. */
module Convergence {
  import opened Base
  import opened TodoDocs
  import opened Histories
  import opened Network
  import LocalSteps
  import opened Runs
  import opened Sync

  // ----- the peer graph -----

  ghost predicate IsPath(edges: set<Edge>, path: seq<Edge>, p: U64, q: U64) {
    if path == [] then p == q
    else path[0] in edges && path[0].src == p && IsPath(edges, path[1..], path[0].dst, q)
  }

  ghost predicate StronglyConnected(nodes: set<U64>, edges: set<Edge>) {
    forall p, q :: p in nodes && q in nodes ==> exists path :: IsPath(edges, path, p, q)
  }

  /** A path out of a set crosses its border. */
  lemma {:induction false} PathCrosses(edges: set<Edge>, path: seq<Edge>, p: U64, q: U64, inside: set<U64>)
    returns (e: Edge)
    requires IsPath(edges, path, p, q) && p in inside && q !in inside
    ensures e in edges && e.src in inside && e.dst !in inside
    decreases |path|
  {
    e := path[0];
    if e.dst in inside {
      e := PathCrosses(edges, path[1..], e.dst, q, inside);
    }
  }

  lemma {:induction false} SubsetSize(a: set<U64>, b: set<U64>)
    requires a <= b
    ensures |a| <= |b|
    ensures |a| == |b| ==> a == b
    decreases a
  {
    if x :| x in a {
      SubsetSize(a - {x}, b - {x});
    }
  }

  // ----- rounds -----

  /** At `taken` the edge clones the snapshot that is delivered at `given`. */
  ghost predicate Transfers(states: seq<System>, steps: seq<Step>, e: Edge, taken: nat, given: nat)
    requires IsRun(states, steps)
  {
    && taken < given < |steps|
    && steps[taken] == Work(e, Clone) && e.src in states[taken].replicas
    && exists again :: steps[given] == Deliver(Frame(e, states[taken].replicas[e.src].doc), again)
  }

  /** Within steps [a, b) the edge clones a snapshot and later has it delivered. */
  ghost predicate Pushed(states: seq<System>, steps: seq<Step>, a: nat, b: nat, e: Edge)
    requires IsRun(states, steps) && b <= |steps|
  {
    exists taken: nat, given: nat :: a <= taken && given < b && Transfers(states, steps, e, taken, given)
  }

  /** Every edge is pushed once, whatever else is interleaved. */
  ghost predicate Round(states: seq<System>, steps: seq<Step>, a: nat, b: nat)
    requires IsRun(states, steps) && b <= |steps|
  {
    a <= b && forall e :: e in states[a].workers ==> Pushed(states, steps, a, b, e)
  }

  /** `cuts` are the moments between consecutive rounds. */
  ghost predicate Rounds(states: seq<System>, steps: seq<Step>, cuts: seq<nat>)
    requires IsRun(states, steps)
  {
    && cuts != []
    && (forall k :: 0 <= k < |cuts| ==> cuts[k] <= |steps|)
    && (forall k :: 0 <= k < |cuts| - 1 ==> Round(states, steps, cuts[k], cuts[k + 1]))
  }

  // ----- while no replica performs an effective operation -----

  lemma GrowsBothWays(a: Logs, b: Logs)
    requires Grows(a, b) && Grows(b, a)
    ensures a == b
  {
    forall r | r in a ensures a[r] == b[r] {
      assert a[r] <= b[r] && b[r] <= a[r];
    }
  }

  /** The logs stand still in between, too. */
  lemma QuietBetween(states: seq<System>, steps: seq<Step>, a: nat, t: nat, b: nat)
    requires IsRun(states, steps) && a <= t <= b <= |steps| && states[b].logs == states[a].logs
    ensures states[t].logs == states[a].logs
  {
    hide Do, Enabled, Init, InRange;
    RunGrows(states, steps, a, t);
    RunGrows(states, steps, t, b);
    GrowsBothWays(states[a].logs, states[t].logs);
  }

  lemma QuietApply(s: System, r: U64, msg: ClientMessage)
    requires Enabled(s, Apply(r, msg)) && Applied(s, r, msg).logs == s.logs
    ensures Applied(s, r, msg).replicas == s.replicas
  {
    hide EventOf, After;
    LocalSteps.EffectOf(s.replicas[r], msg);
    LoggedLength(s.logs[r], EventOf(s.replicas[r], msg));
    assert Applied(s, r, msg).logs[r] == s.logs[r];
    assert s.replicas[r := s.replicas[r]] == s.replicas;
  }

  lemma LoggedLength(log: seq<Event>, ev: Option<Event>)
    ensures |Logged(log, ev)| == |log| + if ev.Some? then 1 else 0
  {
  }

  /** A quiet step moves every replica up, flags included. */
  lemma QuietStepRises(s: System, step: Step, r: U64)
    requires Enabled(s, step) && Do(s, step).logs == s.logs && r in s.replicas
    ensures r in Do(s, step).replicas && Leq(s.replicas[r].doc, Do(s, step).replicas[r].doc)
  {
    hide Leq, After, EventOf, Merged, AfterAction, FlightAfter;
    LeqReflexive(s.replicas[r].doc);
    match step
    case Apply(p, msg) => QuietApply(s, p, msg);
    case Deliver(f, again) => MergeLeastAbove(s.replicas[r].doc, f.doc, f.doc);
    case _ =>
  }

  lemma {:induction false} QuietRises(states: seq<System>, steps: seq<Step>, a: nat, b: nat, r: U64)
    requires IsRun(states, steps) && a <= b <= |steps| && states[b].logs == states[a].logs
    requires r in states[a].replicas
    ensures r in states[b].replicas && Leq(states[a].replicas[r].doc, states[b].replicas[r].doc)
    decreases b - a
  {
    hide Do, Enabled, Init, Leq, LeqCore, InRange;
    if a == b {
      LeqReflexive(states[a].replicas[r].doc);
    } else {
      QuietBetween(states, steps, a, b - 1, b);
      QuietRises(states, steps, a, b - 1, r);
      QuietStepRises(states[b - 1], steps[b - 1], r);
      LeqChain(states[a].replicas[r].doc, states[b - 1].replicas[r].doc, states[b].replicas[r].doc);
    }
  }

  // ----- one push -----

  /** The order that a claim is about: with the flags or without. */
  ghost predicate Within(flags: bool, a: Doc, b: Doc) {
    if flags then Leq(a, b) else LeqCore(a, b)
  }

  lemma WithinReflexive(flags: bool, d: Doc)
    ensures Within(flags, d, d)
  {
    LeqReflexive(d);
  }

  lemma WithinChain(flags: bool, a: Doc, b: Doc, c: Doc)
    requires Within(flags, a, b) && Within(flags, b, c)
    ensures Within(flags, a, c)
  {
    hide LeqCore;
    if flags {
      LeqHasCore(a, b);
      LeqHasCore(b, c);
    }
    LeqTransitive(a, b, c);
  }

  /** A replica's state rises, flags included if no replica performs an effective operation. */
  lemma ReplicaKeeps(states: seq<System>, steps: seq<Step>, a: nat, b: nat, r: U64, flags: bool)
    requires IsRun(states, steps) && a <= b <= |steps| && r in states[a].replicas
    requires flags ==> states[b].logs == states[a].logs
    ensures r in states[b].replicas && Within(flags, states[a].replicas[r].doc, states[b].replicas[r].doc)
  {
    hide Do, Enabled, Init, InRange, Leq, LeqCore;
    if flags {
      QuietRises(states, steps, a, b, r);
    } else {
      ReplicaOnlyGains(states, steps, a, b, r);
    }
  }

  /** Whatever else is interleaved, a snapshot that is cloned and delivered brings
      everything the sender held by then to the receiver for good: flags aside in
      any case, and with the flags while no replica performs an effective operation. */
  lemma TransferCarries(states: seq<System>, steps: seq<Step>, e: Edge, taken: nat, given: nat, a: nat, b: nat)
    requires IsRun(states, steps) && Transfers(states, steps, e, taken, given)
    requires a <= taken && given < b <= |steps|
    ensures e.src in states[a].replicas && e.dst in states[b].replicas
    ensures LeqCore(states[a].replicas[e.src].doc, states[b].replicas[e.dst].doc)
    ensures states[b].logs == states[a].logs ==> Leq(states[a].replicas[e.src].doc, states[b].replicas[e.dst].doc)
  {
    hide Do, Enabled, Init, InRange, Leq, LeqCore, Within;
    RunGrows(states, steps, a, taken);
    TransferKeeps(states, steps, e, taken, given, a, b, false);
    if states[b].logs == states[a].logs {
      TransferKeeps(states, steps, e, taken, given, a, b, true);
    }
    WithinMeans(states[a].replicas[e.src].doc, states[b].replicas[e.dst].doc);
  }

  lemma WithinMeans(a: Doc, b: Doc)
    ensures Within(true, a, b) <==> Leq(a, b)
    ensures Within(false, a, b) <==> LeqCore(a, b)
  {
  }

  lemma TransferKeeps(states: seq<System>, steps: seq<Step>, e: Edge, taken: nat, given: nat, a: nat, b: nat,
                      flags: bool)
    requires IsRun(states, steps) && Transfers(states, steps, e, taken, given)
    requires a <= taken && given < b <= |steps| && e.src in states[a].replicas
    requires flags ==> states[b].logs == states[a].logs
    ensures e.dst in states[b].replicas
    ensures Within(flags, states[a].replicas[e.src].doc, states[b].replicas[e.dst].doc)
  {
    hide Do, Enabled, Init, InRange, Leq, LeqCore, Within;
    var d := states[taken].replicas[e.src].doc;
    var again :| steps[given] == Deliver(Frame(e, d), again);
    if flags {
      QuietBetween(states, steps, a, taken, b);
      QuietBetween(states, steps, a, given + 1, b);
    }
    ReplicaKeeps(states, steps, a, taken, e.src, flags);
    DeliveryContains(states, steps, given, Frame(e, d), again);
    var got := states[given + 1].replicas[e.dst].doc;
    LeqHasCore(d, got);
    WithinMeans(d, got);
    ReplicaKeeps(states, steps, given + 1, b, e.dst, flags);
    WithinChain(flags, states[a].replicas[e.src].doc, d, got);
    WithinChain(flags, states[a].replicas[e.src].doc, got, states[b].replicas[e.dst].doc);
  }

  // ----- knowledge spreads -----

  /** The replicas that contain what `r` held at moment `a`. */
  ghost function Knows(states: seq<System>, a: nat, r: U64, t: nat, flags: bool): set<U64>
    requires a < |states| && t < |states| && r in states[a].replicas
  {
    set p | p in states[t].replicas && Within(flags, states[a].replicas[r].doc, states[t].replicas[p].doc)
  }

  lemma KnowledgeStays(states: seq<System>, steps: seq<Step>, a: nat, r: U64, t: nat, b: nat, flags: bool)
    requires IsRun(states, steps) && a <= t <= b <= |steps| && r in states[a].replicas
    requires flags ==> states[b].logs == states[a].logs
    ensures Knows(states, a, r, t, flags) <= Knows(states, a, r, b, flags)
  {
    hide Do, Enabled, Init, Within, InRange;
    if flags {
      QuietBetween(states, steps, a, t, b);
    }
    forall p | p in Knows(states, a, r, t, flags) ensures p in Knows(states, a, r, b, flags) {
      ReplicaKeeps(states, steps, t, b, p, flags);
      WithinChain(flags, states[a].replicas[r].doc, states[t].replicas[p].doc, states[b].replicas[p].doc);
    }
  }

  /** A round carries knowledge over every edge. */
  lemma RoundSpreads(states: seq<System>, steps: seq<Step>, a: nat, r: U64, t: nat, b: nat, e: Edge, flags: bool)
    requires IsRun(states, steps) && a <= t <= b <= |steps| && r in states[a].replicas
    requires flags ==> states[b].logs == states[a].logs
    requires e in states[t].workers && e.src in Knows(states, a, r, t, flags)
    requires Round(states, steps, t, b)
    ensures e.dst in Knows(states, a, r, b, flags)
  {
    hide Do, Enabled, Init, Within, InRange, Transfers;
    assert Pushed(states, steps, t, b, e);
    var taken: nat, given: nat :| t <= taken && given < b && Transfers(states, steps, e, taken, given);
    if flags {
      QuietBetween(states, steps, a, t, b);
    }
    TransferKeeps(states, steps, e, taken, given, t, b, flags);
    WithinChain(flags, states[a].replicas[r].doc, states[t].replicas[e.src].doc, states[b].replicas[e.dst].doc);
  }

  lemma KnowsItself(states: seq<System>, a: nat, r: U64, flags: bool)
    requires a < |states| && r in states[a].replicas
    ensures r in Knows(states, a, r, a, flags)
  {
    WithinReflexive(flags, states[a].replicas[r].doc);
  }

  lemma KnowsWithin(states: seq<System>, a: nat, r: U64, t: nat, flags: bool)
    requires a < |states| && t < |states| && r in states[a].replicas
    ensures Knows(states, a, r, t, flags) <= states[t].replicas.Keys
  {
  }

  /** Each round that leaves someone out reaches at least one more replica: flags
      aside whatever else happens, flags included while no replica performs an
      effective operation. */
  lemma RoundReachesOneMore(states: seq<System>, steps: seq<Step>, a: nat, r: U64, t: nat, b: nat, flags: bool)
    requires IsRun(states, steps) && a <= t <= b <= |steps|
    requires flags ==> states[b].logs == states[a].logs
    requires r in states[a].replicas && r in Knows(states, a, r, t, flags)
    requires StronglyConnected(states[a].replicas.Keys, states[a].workers.Keys)
    requires Round(states, steps, t, b)
    ensures Knows(states, a, r, t, flags) <= Knows(states, a, r, b, flags)
    ensures Knows(states, a, r, t, flags) == states[a].replicas.Keys
            || |Knows(states, a, r, t, flags)| < |Knows(states, a, r, b, flags)|
  {
    hide Do, Enabled, Init, InRange, Knows, Round, IsPath;
    var known := Knows(states, a, r, t, flags);
    KnowledgeStays(states, steps, a, r, t, b, flags);
    RunGrows(states, steps, a, t);
    KnowsWithin(states, a, r, t, flags);
    if q :| q in states[a].replicas.Keys && q !in known {
      var path :| IsPath(states[a].workers.Keys, path, r, q);
      var e := PathCrosses(states[a].workers.Keys, path, r, q, known);
      RoundSpreads(states, steps, a, r, t, b, e, flags);
      SubsetSize(known, Knows(states, a, r, b, flags));
    }
  }

  lemma {:induction false} RoundsReach(states: seq<System>, steps: seq<Step>, cuts: seq<nat>, r: U64, k: nat,
                                          flags: bool)
    requires IsRun(states, steps) && Rounds(states, steps, cuts) && k < |cuts|
    requires flags ==> states[cuts[|cuts| - 1]].logs == states[cuts[0]].logs
    requires r in states[cuts[0]].replicas
    requires StronglyConnected(states[cuts[0]].replicas.Keys, states[cuts[0]].workers.Keys)
    ensures cuts[0] <= cuts[k]
    ensures r in Knows(states, cuts[0], r, cuts[k], flags)
    ensures Knows(states, cuts[0], r, cuts[k], flags) == states[cuts[0]].replicas.Keys
            || |Knows(states, cuts[0], r, cuts[k], flags)| >= k + 1
  {
    hide Do, Enabled, Init, InRange, Knows, Pushed, StronglyConnected;
    var a := cuts[0];
    if k == 0 {
      KnowsItself(states, a, r, flags);
      SubsetSize({r}, Knows(states, a, r, a, flags));
    } else {
      RoundsReach(states, steps, cuts, r, k - 1, flags);
      assert Round(states, steps, cuts[k - 1], cuts[k - 1 + 1]);
      CutsOrdered(states, steps, cuts, k);
      if flags {
        QuietBetween(states, steps, a, cuts[k], cuts[|cuts| - 1]);
      }
      RoundReachesOneMore(states, steps, a, r, cuts[k - 1], cuts[k], flags);
      RunGrows(states, steps, a, cuts[k]);
      KnowsWithin(states, a, r, cuts[k], flags);
    }
  }

  lemma {:induction false} CutsOrdered(states: seq<System>, steps: seq<Step>, cuts: seq<nat>, k: nat)
    requires IsRun(states, steps) && Rounds(states, steps, cuts) && k < |cuts|
    ensures cuts[k] <= cuts[|cuts| - 1]
    decreases |cuts| - k
  {
    if k < |cuts| - 1 {
      assert Round(states, steps, cuts[k], cuts[k + 1]);
      CutsOrdered(states, steps, cuts, k + 1);
    }
  }

  lemma EveryoneIsReached(states: seq<System>, steps: seq<Step>, cuts: seq<nat>, r: U64, p: U64, flags: bool)
    requires IsRun(states, steps) && Rounds(states, steps, cuts)
    requires flags ==> states[cuts[|cuts| - 1]].logs == states[cuts[0]].logs
    requires StronglyConnected(states[cuts[0]].replicas.Keys, states[cuts[0]].workers.Keys)
    requires |cuts| == |states[cuts[0]].replicas|
    requires r in states[cuts[0]].replicas && p in states[cuts[0]].replicas
    ensures p in states[cuts[|cuts| - 1]].replicas
    ensures Within(flags, states[cuts[0]].replicas[r].doc, states[cuts[|cuts| - 1]].replicas[p].doc)
  {
    hide Do, Enabled, Init, InRange, Pushed, Round, StronglyConnected, Within;
    var a, b := cuts[0], cuts[|cuts| - 1];
    CutsOrdered(states, steps, cuts, 0);
    RoundsReach(states, steps, cuts, r, |cuts| - 1, flags);
    RunGrows(states, steps, a, b);
    KnowsWithin(states, a, r, b, flags);
    SubsetSize(Knows(states, a, r, b, flags), states[a].replicas.Keys);
    assert |states[a].replicas.Keys| == |states[a].replicas|;
  }

  /** After as many rounds as there are other replicas everyone contains what
      everyone held at the start, however many local operations go on meanwhile;
      flags included if there are none. */
  lemma EveryoneKnowsEveryone(states: seq<System>, steps: seq<Step>, cuts: seq<nat>, r: U64, p: U64)
    requires IsRun(states, steps) && Rounds(states, steps, cuts)
    requires StronglyConnected(states[cuts[0]].replicas.Keys, states[cuts[0]].workers.Keys)
    requires |cuts| == |states[cuts[0]].replicas|
    requires r in states[cuts[0]].replicas && p in states[cuts[0]].replicas
    ensures p in states[cuts[|cuts| - 1]].replicas
    ensures LeqCore(states[cuts[0]].replicas[r].doc, states[cuts[|cuts| - 1]].replicas[p].doc)
    ensures states[cuts[|cuts| - 1]].logs == states[cuts[0]].logs ==>
              Leq(states[cuts[0]].replicas[r].doc, states[cuts[|cuts| - 1]].replicas[p].doc)
  {
    hide Do, Enabled, Init, InRange, Round, StronglyConnected, Leq, LeqCore, Within;
    var a, b := cuts[0], cuts[|cuts| - 1];
    EveryoneIsReached(states, steps, cuts, r, p, false);
    if states[b].logs == states[a].logs {
      EveryoneIsReached(states, steps, cuts, r, p, true);
    }
    WithinMeans(states[a].replicas[r].doc, states[b].replicas[p].doc);
  }

  // ----- flags have no clock: what is stale can still set one -----

  /** Every frame delivered within steps [a, b) is below `j`, flags included. */
  ghost predicate DeliveredBelow(steps: seq<Step>, a: nat, b: nat, j: Doc) {
    forall t :: a <= t < b <= |steps| && steps[t].Deliver? ==> Leq(steps[t].f.doc, j)
  }

  ghost predicate ReplicasBelow(s: System, j: Doc) {
    forall r :: r in s.replicas ==> Leq(s.replicas[r].doc, j)
  }

  lemma QuietStepStaysBelow(s: System, step: Step, j: Doc)
    requires Enabled(s, step) && Do(s, step).logs == s.logs && ReplicasBelow(s, j)
    requires step.Deliver? ==> Leq(step.f.doc, j)
    ensures ReplicasBelow(Do(s, step), j)
  {
    hide Leq, LeqCore, After, EventOf, Merged, AfterAction, FlightAfter;
    match step
    case Apply(p, msg) => QuietApply(s, p, msg);
    case Deliver(f, again) => MergeLeastAbove(s.replicas[f.via.dst].doc, f.doc, j);
    case _ =>
  }

  lemma {:induction false} QuietStaysBelow(states: seq<System>, steps: seq<Step>, a: nat, b: nat, j: Doc)
    requires IsRun(states, steps) && a <= b <= |steps| && states[b].logs == states[a].logs
    requires ReplicasBelow(states[a], j) && DeliveredBelow(steps, a, b, j)
    ensures ReplicasBelow(states[b], j)
    decreases b - a
  {
    hide Do, Enabled, Init, InRange, ReplicasBelow, Leq;
    if a < b {
      QuietBetween(states, steps, a, b - 1, b);
      QuietStaysBelow(states, steps, a, b - 1, j);
      QuietStepStaysBelow(states[b - 1], steps[b - 1], j);
    }
  }

  lemma StartBelowJoin(states: seq<System>, steps: seq<Step>, t: nat)
    requires IsRun(states, steps) && t <= |steps|
    ensures ReplicasBelow(states[t], JoinOf(states[t]))
  {
    hide Do, Enabled, Init, InRange, Leq, JoinOf;
    forall r | r in states[t].replicas ensures Leq(states[t].replicas[r].doc, JoinOf(states[t])) {
      ReplicaBelowJoin(states, steps, t, r);
    }
  }

  /** No snapshot is in flight or about to be sent. */
  ghost predicate NothingUnderWay(s: System) {
    s.flight == {} && forall e :: e in s.workers ==> !s.workers[e].phase.Holding?
  }

  /** Frames and cloned snapshots stay below `j`, flags included. */
  ghost predicate UnderWayBelow(s: System, j: Doc) {
    && (forall f :: f in s.flight ==> Leq(f.doc, j))
    && (forall e :: e in s.workers && s.workers[e].phase.Holding? ==> Leq(s.workers[e].phase.doc, j))
  }

  lemma StepKeepsUnderWayBelow(s: System, step: Step, j: Doc)
    requires Enabled(s, step) && ReplicasBelow(s, j) && UnderWayBelow(s, j)
    ensures UnderWayBelow(Do(s, step), j)
  {
    hide Leq, After, EventOf, Received;
  }

  lemma {:induction false} QuietUnderWayBelow(states: seq<System>, steps: seq<Step>, a: nat, b: nat, j: Doc)
    requires IsRun(states, steps) && a <= b <= |steps| && states[b].logs == states[a].logs
    requires ReplicasBelow(states[a], j) && UnderWayBelow(states[a], j)
    ensures ReplicasBelow(states[b], j) && UnderWayBelow(states[b], j) && DeliveredBelow(steps, a, b, j)
    decreases b - a
  {
    hide Do, Init, InRange, ReplicasBelow, UnderWayBelow, Leq;
    if a < b {
      QuietBetween(states, steps, a, b - 1, b);
      QuietUnderWayBelow(states, steps, a, b - 1, j);
      if steps[b - 1].Deliver? {
        FlightBelow(states[b - 1], steps[b - 1].f, j);
      }
      QuietStepStaysBelow(states[b - 1], steps[b - 1], j);
      StepKeepsUnderWayBelow(states[b - 1], steps[b - 1], j);
    }
  }

  lemma FlightBelow(s: System, f: Frame, j: Doc)
    requires UnderWayBelow(s, j) && f in s.flight
    ensures Leq(f.doc, j)
  {
  }

  // ----- the theorems -----

  /** After n - 1 rounds each of the n replicas contains the join of the starting
      states, however many local operations go on meanwhile; flags included if
      there are none. */
  lemma RoundsCarryJoin(states: seq<System>, steps: seq<Step>, cuts: seq<nat>, p: U64)
    requires IsRun(states, steps) && Rounds(states, steps, cuts)
    requires StronglyConnected(states[cuts[0]].replicas.Keys, states[cuts[0]].workers.Keys)
    requires |cuts| == |states[cuts[0]].replicas|
    requires p in states[cuts[0]].replicas
    ensures p in states[cuts[|cuts| - 1]].replicas
    ensures LeqCore(JoinOf(states[cuts[0]]), states[cuts[|cuts| - 1]].replicas[p].doc)
    ensures states[cuts[|cuts| - 1]].logs == states[cuts[0]].logs ==>
              Leq(JoinOf(states[cuts[0]]), states[cuts[|cuts| - 1]].replicas[p].doc)
  {
    hide Do, Enabled, Init, InRange, Round, StronglyConnected, Leq, LeqCore, Join;
    var a, b := cuts[0], cuts[|cuts| - 1];
    CutsOrdered(states, steps, cuts, 0);
    RunGrows(states, steps, a, b);
    var d := states[b].replicas[p].doc;
    forall r | r in Docs(states[a])
      ensures LeqCore(Docs(states[a])[r], d)
      ensures states[b].logs == states[a].logs ==> Leq(Docs(states[a])[r], d)
    {
      EveryoneKnowsEveryone(states, steps, cuts, r, p);
    }
    JoinLeast(Docs(states[a]), states[a].replicas.Keys, d);
  }

  /** If no replica performs an effective operation during n - 1 rounds, then after
      them each of the n replicas holds exactly the join of the starting states,
      flags aside. */
  lemma RoundsConverge(states: seq<System>, steps: seq<Step>, cuts: seq<nat>, p: U64)
    requires IsRun(states, steps) && Rounds(states, steps, cuts)
    requires states[cuts[|cuts| - 1]].logs == states[cuts[0]].logs
    requires StronglyConnected(states[cuts[0]].replicas.Keys, states[cuts[0]].workers.Keys)
    requires |cuts| == |states[cuts[0]].replicas|
    requires p in states[cuts[0]].replicas
    ensures p in states[cuts[|cuts| - 1]].replicas
    ensures Core(states[cuts[|cuts| - 1]].replicas[p].doc) == Core(JoinOf(states[cuts[0]]))
    ensures Leq(states[cuts[|cuts| - 1]].replicas[p].doc, JoinOf(states[cuts[0]])) ==>
              states[cuts[|cuts| - 1]].replicas[p].doc == JoinOf(states[cuts[0]])
  {
    hide Do, Enabled, Init, InRange, Round, StronglyConnected, Leq, LeqCore, Explains, Core, JoinOf, Occurs, UniqueIds;
    var a, b := cuts[0], cuts[|cuts| - 1];
    var j := JoinOf(states[a]);
    CutsOrdered(states, steps, cuts, 0);
    RoundsCarryJoin(states, steps, cuts, p);
    var d := states[b].replicas[p].doc;
    ReplicaOccurs(states[b], p);
    OccursBelowJoin(states, steps, a, b, d);
    RunJoinExplained(states, steps, a, b);
    RunExplains(states, steps, b, b, d);
    ExplainedPositive(states[b].peers, states[b].logs, j);
    ExplainedPositive(states[b].peers, states[b].logs, d);
    LeqAntisymmetric(d, j);
  }

  ghost predicate AllHold(s: System, j: Doc) {
    forall p :: p in s.replicas ==> s.replicas[p].doc == j
  }

  /** The flags converge with the rest exactly when no frame that sets another flag
      is delivered during the rounds. */
  lemma FlagsConvergeIff(states: seq<System>, steps: seq<Step>, cuts: seq<nat>)
    requires IsRun(states, steps) && Rounds(states, steps, cuts)
    requires states[cuts[|cuts| - 1]].logs == states[cuts[0]].logs
    requires StronglyConnected(states[cuts[0]].replicas.Keys, states[cuts[0]].workers.Keys)
    requires |cuts| == |states[cuts[0]].replicas|
    ensures AllHold(states[cuts[|cuts| - 1]], JoinOf(states[cuts[0]])) <==>
            DeliveredBelow(steps, cuts[0], cuts[|cuts| - 1], JoinOf(states[cuts[0]]))
  {
    hide Do, Enabled, Init, InRange, Round, StronglyConnected, Leq, LeqCore, JoinOf, Core;
    var a, b := cuts[0], cuts[|cuts| - 1];
    var j := JoinOf(states[a]);
    CutsOrdered(states, steps, cuts, 0);
    RunGrows(states, steps, a, b);
    if DeliveredBelow(steps, a, b, j) {
      StartBelowJoin(states, steps, a);
      QuietStaysBelow(states, steps, a, b, j);
      forall p | p in states[b].replicas ensures states[b].replicas[p].doc == j {
        RoundsConverge(states, steps, cuts, p);
      }
    }
    if AllHold(states[b], j) {
      forall t | a <= t < b && steps[t].Deliver? ensures Leq(steps[t].f.doc, j) {
        var f := steps[t].f;
        DeliveryContains(states, steps, t, f, steps[t].again);
        QuietBetween(states, steps, a, t + 1, b);
        QuietRises(states, steps, t + 1, b, f.via.dst);
        LeqChain(f.doc, states[t + 1].replicas[f.via.dst].doc, states[b].replicas[f.via.dst].doc);
      }
    }
  }

  /** So they do if nothing was under way at the start. */
  lemma CleanStartConverges(states: seq<System>, steps: seq<Step>, cuts: seq<nat>)
    requires IsRun(states, steps) && Rounds(states, steps, cuts)
    requires states[cuts[|cuts| - 1]].logs == states[cuts[0]].logs
    requires StronglyConnected(states[cuts[0]].replicas.Keys, states[cuts[0]].workers.Keys)
    requires |cuts| == |states[cuts[0]].replicas| && NothingUnderWay(states[cuts[0]])
    ensures AllHold(states[cuts[|cuts| - 1]], JoinOf(states[cuts[0]]))
  {
    hide Do, Enabled, Init, InRange, Round, StronglyConnected, Leq, JoinOf, AllHold, DeliveredBelow;
    var a, b := cuts[0], cuts[|cuts| - 1];
    CutsOrdered(states, steps, cuts, 0);
    StartBelowJoin(states, steps, a);
    QuietUnderWayBelow(states, steps, a, b, JoinOf(states[a]));
    FlagsConvergeIff(states, steps, cuts);
  }
}
