/** Where snapshots come from, and what the clocks say about causality: comparing
    the clocks of two operations reveals which one happened before the other. */
module Causality {
  import opened Base
  import opened TodoDocs
  import opened Histories
  import opened Network
  import opened Invariants
  import LocalSteps
  import opened Runs
  import Clocks = VectorClocks

  // ----- every snapshot was once its sender's state -----

  /** Cloned, in flight, or ever sent by `src`. */
  ghost predicate SnapshotOf(s: System, src: U64, d: Doc) {
    || (exists f :: f in s.flight && f.via.src == src && f.doc == d)
    || (exists e :: e in s.workers && e.src == src && (s.workers[e].phase == Holding(d) || d in s.workers[e].sent))
  }

  lemma SnapshotOneStepBack(s: System, step: Step, src: U64, d: Doc)
    requires Enabled(s, step) && SnapshotOf(Do(s, step), src, d)
    ensures SnapshotOf(s, src, d) || (src in s.replicas && s.replicas[src].doc == d)
  {
    hide EventOf, After, Received;
    match step
    case Work(e, act) => SnapshotOneActionBack(s, e, act, src, d);
    case _ =>
  }

  lemma SnapshotOneActionBack(s: System, e: Edge, act: Action, src: U64, d: Doc)
    requires Enabled(s, Work(e, act)) && SnapshotOf(Worked(s, e, act), src, d)
    ensures SnapshotOf(s, src, d) || (src in s.replicas && s.replicas[src].doc == d)
  {
    var s' := Worked(s, e, act);
    var w, w' := s.workers[e], s'.workers[e];
    assert w'.phase == Holding(d) ==> w.phase == Holding(d) || d == s.replicas[e.src].doc;
    assert d in w'.sent ==> d in w.sent || w.phase == Holding(d);
    if f :| f in s'.flight && f.via.src == src && f.doc == d && f !in s.flight {
      assert w.phase == Holding(d);
    }
  }

  /** A snapshot, wherever it is, equals the state its sender had at some earlier moment. */
  lemma {:induction false} SnapshotHasOrigin(states: seq<System>, steps: seq<Step>, t: nat, src: U64, d: Doc)
    returns (u: nat)
    requires IsRun(states, steps) && t <= |steps| && SnapshotOf(states[t], src, d)
    ensures u <= t && src in states[u].replicas && d == states[u].replicas[src].doc
  {
    hide Do, Enabled, InRange, SnapshotOf;
    if t == 0 {
      NoSnapshotAtStart(states[0], src, d);
      assert false;
    }
    SnapshotOneStepBack(states[t - 1], steps[t - 1], src, d);
    if SnapshotOf(states[t - 1], src, d) {
      u := SnapshotHasOrigin(states, steps, t - 1, src, d);
    } else {
      u := t - 1;
    }
  }

  lemma NoSnapshotAtStart(s: System, src: U64, d: Doc)
    requires Init(s)
    ensures !SnapshotOf(s, src, d)
  {
  }

  /** Any two snapshots of one sender, over whatever connections and at whatever
      moments, are contained one in the other, flags aside. */
  lemma SnapshotsOfOneSender(states: seq<System>, steps: seq<Step>, a: nat, b: nat, src: U64, x: Doc, y: Doc)
    requires IsRun(states, steps) && a <= |steps| && b <= |steps|
    requires SnapshotOf(states[a], src, x) && SnapshotOf(states[b], src, y)
    ensures LeqCore(x, y) || LeqCore(y, x)
  {
    hide Do, Enabled, Init, InRange, SnapshotOf, LeqCore;
    var u := SnapshotHasOrigin(states, steps, a, src, x);
    var v := SnapshotHasOrigin(states, steps, b, src, y);
    if u <= v {
      ReplicaOnlyGains(states, steps, u, v, src);
    } else {
      ReplicaOnlyGains(states, steps, v, u, src);
    }
  }

  // ----- happened-before -----

  /** The step reads or writes the state of replica `r`. */
  predicate AtReplica(step: Step, r: U64) {
    match step
    case Apply(p, msg) => p == r
    case Deliver(f, again) => f.via.dst == r
    case Work(e, act) => act.Clone? && e.src == r
    case _ => false
  }

  ghost predicate SameReplica(steps: seq<Step>, t: nat, u: nat)
    requires t < |steps| && u < |steps|
  {
    exists r :: AtReplica(steps[t], r) && AtReplica(steps[u], r)
  }

  /** At `u` the edge sends what it cloned at `t`. */
  predicate Sends(steps: seq<Step>, t: nat, u: nat)
    requires t < |steps| && u < |steps|
  {
    && steps[u].Work? && steps[u].act.Send? && steps[t] == Work(steps[u].e, Clone)
    && forall m :: t < m < u ==> steps[m] != Work(steps[u].e, Clone)
  }

  /** The frame sent at `t` is delivered at `u`. */
  predicate Travels(states: seq<System>, steps: seq<Step>, t: nat, u: nat)
    requires t < |steps| && u < |steps| && |states| == |steps| + 1
  {
    && steps[u].Deliver? && steps[t] == Work(steps[u].f.via, Send)
    && steps[u].f.via in states[t].workers && states[t].workers[steps[u].f.via].phase == Holding(steps[u].f.doc)
  }

  ghost predicate Precedes(states: seq<System>, steps: seq<Step>, t: nat, u: nat)
    requires |states| == |steps| + 1
  {
    t < u < |steps| && (SameReplica(steps, t, u) || Sends(steps, t, u) || Travels(states, steps, t, u))
  }

  /** Lamport's happened-before: the transitive closure of order at one replica and
      order along a message. */
  ghost predicate HappenedBefore(states: seq<System>, steps: seq<Step>, t: nat, u: nat)
    requires |states| == |steps| + 1
    decreases u
  {
    || Precedes(states, steps, t, u)
    || exists m :: t < m < u && HappenedBefore(states, steps, t, m) && Precedes(states, steps, m, u)
  }

  lemma {:induction false} AfterItsCause(states: seq<System>, steps: seq<Step>, t: nat, u: nat)
    requires |states| == |steps| + 1 && HappenedBefore(states, steps, t, u)
    ensures t < u < |steps|
    decreases u
  {
  }

  lemma {:induction false} HappenedBeforeTransitive(states: seq<System>, steps: seq<Step>, t: nat, m: nat, u: nat)
    requires |states| == |steps| + 1
    requires HappenedBefore(states, steps, t, m) && HappenedBefore(states, steps, m, u)
    ensures HappenedBefore(states, steps, t, u)
    decreases u
  {
    hide Precedes;
    AfterItsCause(states, steps, t, m);
    AfterItsCause(states, steps, m, u);
    if !Precedes(states, steps, m, u) {
      var k :| m < k < u && HappenedBefore(states, steps, m, k) && Precedes(states, steps, k, u);
      HappenedBeforeTransitive(states, steps, t, m, k);
    }
  }

  /** The state that a step leaves behind or hands on. */
  ghost predicate Carries(states: seq<System>, steps: seq<Step>, t: nat, d: Doc)
    requires t < |steps| && |states| == |steps| + 1
  {
    match steps[t]
    case Apply(r, msg) => r in states[t + 1].replicas && d == states[t + 1].replicas[r].doc
    case Deliver(f, again) => f.via.dst in states[t + 1].replicas && d == states[t + 1].replicas[f.via.dst].doc
    case Work(e, act) =>
      || (act.Clone? && e.src in states[t].replicas && d == states[t].replicas[e.src].doc)
      || (act.Send? && e in states[t].workers && states[t].workers[e].phase == Holding(d))
    case _ => false
  }

  // ----- what happened before is under the clock -----

  /** A clone leaves the replica as it is, so a step at a replica hands on what the
      replica holds right after it. */
  lemma CarriedAtReplica(states: seq<System>, steps: seq<Step>, t: nat, r: U64, d: Doc)
    requires IsRun(states, steps) && t < |steps| && AtReplica(steps[t], r)
    ensures Carries(states, steps, t, d) <==> r in states[t + 1].replicas && d == states[t + 1].replicas[r].doc
  {
    hide EventOf, After, Received, Init, InRange;
    assert Enabled(states[t], steps[t]) && states[t + 1] == Do(states[t], steps[t]);
  }

  lemma CloneIsHeld(s: System, e: Edge)
    requires Enabled(s, Work(e, Clone))
    ensures e in Do(s, Work(e, Clone)).workers
    ensures Do(s, Work(e, Clone)).workers[e].phase == Holding(s.replicas[e.src].doc)
  {
  }

  lemma HeldStays(s: System, step: Step, e: Edge)
    requires Enabled(s, step) && e in s.workers && e in Do(s, step).workers
    requires Do(s, step).workers[e].phase.Holding? && step != Work(e, Clone)
    ensures s.workers[e].phase == Do(s, step).workers[e].phase
  {
    hide EventOf, After, Received, FlightAfter;
  }

  /** What an edge holds it cloned at its last clone. */
  lemma {:induction false} HeldSince(states: seq<System>, steps: seq<Step>, t: nat, u: nat, e: Edge)
    requires IsRun(states, steps) && t < u <= |steps| && steps[t] == Work(e, Clone)
    requires forall m :: t < m < u ==> steps[m] != Work(e, Clone)
    requires e in states[u].workers && states[u].workers[e].phase.Holding?
    ensures e.src in states[t].replicas && states[u].workers[e].phase.doc == states[t].replicas[e.src].doc
    decreases u - t
  {
    hide Do, Init, InRange;
    assert Enabled(states[u - 1], steps[u - 1]) && states[u] == Do(states[u - 1], steps[u - 1]);
    if u - 1 == t {
      CloneIsHeld(states[t], e);
    } else {
      RunGrows(states, steps, u - 1, u);
      HeldStays(states[u - 1], steps[u - 1], e);
      HeldSince(states, steps, t, u - 1, e);
    }
  }

  lemma PrecedesGains(states: seq<System>, steps: seq<Step>, t: nat, u: nat, x: Doc, y: Doc)
    requires IsRun(states, steps) && Precedes(states, steps, t, u)
    requires Carries(states, steps, t, x) && Carries(states, steps, u, y)
    ensures LeqCore(x, y)
  {
    hide Do, Enabled, Init, InRange, Leq, LeqCore, Merged;
    if SameReplica(steps, t, u) {
      var r :| AtReplica(steps[t], r) && AtReplica(steps[u], r);
      CarriedAtReplica(states, steps, t, r, x);
      CarriedAtReplica(states, steps, u, r, y);
      ReplicaOnlyGains(states, steps, t + 1, u + 1, r);
    } else if Sends(steps, t, u) {
      HeldSince(states, steps, t, u, steps[u].e);
      LeqReflexive(x);
    } else {
      DeliveryContains(states, steps, u, steps[u].f, steps[u].again);
      LeqHasCore(x, y);
    }
  }

  lemma {:induction false} HappenedBeforeGains(states: seq<System>, steps: seq<Step>, t: nat, u: nat, x: Doc, y: Doc)
    requires IsRun(states, steps) && HappenedBefore(states, steps, t, u) && t < |steps| && u < |steps|
    requires Carries(states, steps, t, x) && Carries(states, steps, u, y)
    ensures LeqCore(x, y)
    decreases u
  {
    hide Do, Enabled, Init, InRange, LeqCore, Precedes, Carries;
    if Precedes(states, steps, t, u) {
      PrecedesGains(states, steps, t, u, x, y);
    } else {
      var m :| t < m < u && HappenedBefore(states, steps, t, m) && Precedes(states, steps, m, u);
      var z := StepCarries(states, steps, m, u);
      HappenedBeforeGains(states, steps, t, m, x, z);
      PrecedesGains(states, steps, m, u, z, y);
      LeqTransitive(x, z, y);
    }
  }

  lemma StepCarries(states: seq<System>, steps: seq<Step>, t: nat, u: nat) returns (d: Doc)
    requires IsRun(states, steps) && Precedes(states, steps, t, u)
    ensures Carries(states, steps, t, d)
  {
    hide EventOf, After, Received, Init, InRange;
    assert Enabled(states[t], steps[t]) && states[t + 1] == Do(states[t], steps[t]);
    match steps[t]
    case Apply(r, msg) => d := states[t + 1].replicas[r].doc;
    case Deliver(f, again) => d := states[t + 1].replicas[f.via.dst].doc;
    case Work(e, act) => d := if act.Clone? then states[t].replicas[e.src].doc else states[t].workers[e].phase.doc;
    case _ =>
  }

  // ----- what is under the clock happened before -----

  lemma SameStateElsewhere(s: System, step: Step, r: U64)
    requires Enabled(s, step) && r in s.replicas && !AtReplica(step, r)
    ensures r in Do(s, step).replicas && Do(s, step).replicas[r] == s.replicas[r]
  {
    hide EventOf, After, Received, AfterAction, FlightAfter;
  }

  /** What a replica knows it knows since its last step. */
  lemma {:induction false} ReplicaOrigin(states: seq<System>, steps: seq<Step>, u: nat, r: U64) returns (v: nat)
    requires IsRun(states, steps) && u <= |steps| && r in states[u].replicas
    requires states[u].replicas[r].doc != EMPTY
    ensures v < u && AtReplica(steps[v], r) && Carries(states, steps, v, states[u].replicas[r].doc)
  {
    hide Do, Enabled, InRange, Carries;
    v := u - 1;
    RunGrows(states, steps, v, u);
    if AtReplica(steps[v], r) {
      CarriedAtReplica(states, steps, v, r, states[u].replicas[r].doc);
    } else {
      SameStateElsewhere(states[v], steps[v], r);
      v := ReplicaOrigin(states, steps, v, r);
    }
  }

  lemma {:induction false} HeldOrigin(states: seq<System>, steps: seq<Step>, u: nat, e: Edge) returns (v: nat)
    requires IsRun(states, steps) && u <= |steps| && e in states[u].workers && states[u].workers[e].phase.Holding?
    ensures v < u && steps[v] == Work(e, Clone)
    ensures forall m :: v < m < u ==> steps[m] != Work(e, Clone)
    ensures e.src in states[v].replicas && states[u].workers[e].phase.doc == states[v].replicas[e.src].doc
  {
    hide Do, Enabled, InRange;
    v := u - 1;
    RunGrows(states, steps, v, u);
    if steps[v] != Work(e, Clone) {
      HeldStays(states[v], steps[v], e);
      v := HeldOrigin(states, steps, v, e);
    }
    HeldSince(states, steps, v, u, e);
  }

  lemma FlightOneStepBack(s: System, step: Step, f: Frame)
    requires Enabled(s, step) && f in Do(s, step).flight && f !in s.flight
    ensures step == Work(f.via, Send) && s.workers[f.via].phase == Holding(f.doc)
  {
    hide EventOf, After, Received, AfterAction;
  }

  lemma {:induction false} FrameOrigin(states: seq<System>, steps: seq<Step>, u: nat, f: Frame) returns (v: nat)
    requires IsRun(states, steps) && u <= |steps| && f in states[u].flight
    ensures v < u && steps[v] == Work(f.via, Send)
    ensures f.via in states[v].workers && states[v].workers[f.via].phase == Holding(f.doc)
  {
    hide Do, InRange;
    v := u - 1;
    assert Enabled(states[v], steps[v]) && states[u] == Do(states[v], steps[v]);
    if f in states[v].flight {
      v := FrameOrigin(states, steps, v, f);
    } else {
      FlightOneStepBack(states[v], steps[v], f);
    }
  }

  /** Step `t` is an operation that its replica logs. */
  predicate IsOperation(states: seq<System>, steps: seq<Step>, t: nat)
    requires |states| == |steps| + 1
  {
    && t < |steps| && steps[t].Apply? && steps[t].r in states[t].replicas && steps[t].r in states[t].logs
    && EventOf(states[t].replicas[steps[t].r], steps[t].msg).Some?
  }

  /** Its place in the replica's log. */
  function DotAt(states: seq<System>, steps: seq<Step>, t: nat): Dot
    requires |states| == |steps| + 1 && IsOperation(states, steps, t)
  {
    LocalSteps.NextDot(states[t].logs, steps[t].r)
  }

  lemma OperationLogs(states: seq<System>, steps: seq<Step>, t: nat)
    requires IsRun(states, steps) && IsOperation(states, steps, t)
    ensures var r := steps[t].r;
            && r in states[t + 1].logs && |states[t + 1].logs[r]| == |states[t].logs[r]| + 1
            && r in states[t + 1].replicas
            && states[t + 1].replicas[r] == After(states[t].replicas[r], steps[t].msg)
  {
    hide EventOf, After, Init, InRange;
    assert Enabled(states[t], steps[t]) && states[t + 1] == Do(states[t], steps[t]);
  }

  /** Distinct operations have distinct dots. */
  lemma DotsDiffer(states: seq<System>, steps: seq<Step>, t: nat, u: nat)
    requires IsRun(states, steps) && IsOperation(states, steps, t) && IsOperation(states, steps, u) && t < u
    ensures DotAt(states, steps, t) != DotAt(states, steps, u)
  {
    hide Do, Enabled, Init, InRange, EventOf;
    OperationLogs(states, steps, t);
    RunGrows(states, steps, t + 1, u);
  }

  /** The clock after a message counts what it counted before, and the message's
      own operation if it is one. */
  lemma SeenAfterApply(states: seq<System>, steps: seq<Step>, u: nat, r: U64, e: Dot)
    requires IsRun(states, steps) && u < |steps| && steps[u].Apply? && steps[u].r == r && r in states[u].replicas
    ensures r in states[u + 1].replicas && r in states[u].logs
    ensures e in Seen(states[u + 1].replicas[r].doc.clock) ==>
              || e in Seen(states[u].replicas[r].doc.clock)
              || (IsOperation(states, steps, u) && e == DotAt(states, steps, u))
    ensures IsOperation(states, steps, u) ==>
              DotAt(states, steps, u) in Seen(states[u + 1].replicas[r].doc.clock)
  {
    hide EventOf, After, Init, InRange, Inv, ReplicaOk, Explains, Occurs, Clocks.Incremented, LocalSteps.Fits;
    RunInv(states, steps, u);
    RunInv(states, steps, u + 1);
    RunShape(states, steps, u);
    RunShape(states, steps, u + 1);
    var s, msg := states[u], steps[u].msg;
    assert Enabled(s, Apply(r, msg)) && states[u + 1] == Do(s, Apply(r, msg));
    InvAtReplica(s, r);
    ReplicaFacts(s.peers[r], r, s.logs[r], s.replicas[r]);
    InvAtReplica(states[u + 1], r);
    ReplicaFacts(s.peers[r], r, states[u + 1].logs[r], states[u + 1].replicas[r]);
    LocalSteps.EffectOf(s.replicas[r], msg);
    if EventOf(s.replicas[r], msg).Some? {
      OperationLogs(states, steps, u);
      SeenIncremented(s.replicas[r].doc.clock, r);
    }
  }

  lemma OneMoreStep(states: seq<System>, steps: seq<Step>, t: nat, v: nat, u: nat)
    requires |states| == |steps| + 1 && Precedes(states, steps, v, u)
    requires t == v || HappenedBefore(states, steps, t, v)
    ensures HappenedBefore(states, steps, t, u)
  {
    if t != v {
      AfterItsCause(states, steps, t, v);
    }
  }

  lemma CarriesMeans(states: seq<System>, steps: seq<Step>, t: nat, e: Edge, act: Action, d: Doc)
    requires t < |steps| && |states| == |steps| + 1 && steps[t] == Work(e, act)
    ensures Carries(states, steps, t, d) <==>
            || (act.Clone? && e.src in states[t].replicas && d == states[t].replicas[e.src].doc)
            || (act.Send? && e in states[t].workers && states[t].workers[e].phase == Holding(d))
  {
  }

  lemma DeliveredClock(s: System, f: Frame, again: bool)
    requires Enabled(s, Deliver(f, again))
    ensures f in s.flight && f.via.dst in s.replicas && f.via.dst in Do(s, Deliver(f, again)).replicas
    ensures Do(s, Deliver(f, again)).replicas[f.via.dst].doc.clock ==
            Clocks.Merged(s.replicas[f.via.dst].doc.clock, f.doc.clock)
  {
  }

  /** What the replica of step `u` knew before that step happened before it. */
  lemma KnownAtReplica(states: seq<System>, steps: seq<Step>, t: nat, u: nat, r: U64)
    requires IsRun(states, steps) && IsOperation(states, steps, t) && u < |steps|
    requires AtReplica(steps[u], r) && r in states[u].replicas
    requires DotAt(states, steps, t) in Seen(states[u].replicas[r].doc.clock)
    ensures HappenedBefore(states, steps, t, u)
    decreases u, 0
  {
    hide Do, Enabled, Init, InRange, EventOf, IsOperation, DotAt, Carries, HappenedBefore;
    var d := states[u].replicas[r].doc;
    var v := ReplicaOrigin(states, steps, u, r);
    KnownHappenedBefore(states, steps, t, v, d);
    assert SameReplica(steps, v, u);
    OneMoreStep(states, steps, t, v, u);
  }

  /** An operation under the clock that some step hands on is that step or happened
      before it. */
  lemma {:induction false} KnownHappenedBefore(states: seq<System>, steps: seq<Step>, t: nat, u: nat, y: Doc)
    requires IsRun(states, steps) && IsOperation(states, steps, t) && u < |steps|
    requires Carries(states, steps, u, y) && DotAt(states, steps, t) in Seen(y.clock)
    ensures t == u || HappenedBefore(states, steps, t, u)
    decreases u, 1
  {
    hide Do, Init, InRange, EventOf, IsOperation, DotAt, Carries, HappenedBefore, Merged,
      Clocks.Merged;
    var e := DotAt(states, steps, t);
    assert Enabled(states[u], steps[u]) && states[u + 1] == Do(states[u], steps[u]);
    match steps[u]
    case Apply(r, msg) =>
      CarriedAtReplica(states, steps, u, r, y);
      SeenAfterApply(states, steps, u, r, e);
      if e in Seen(states[u].replicas[r].doc.clock) {
        KnownAtReplica(states, steps, t, u, r);
      } else if t < u {
        DotsDiffer(states, steps, t, u);
      } else if u < t {
        DotsDiffer(states, steps, u, t);
      }
    case Deliver(f, again) =>
      CarriedAtReplica(states, steps, u, f.via.dst, y);
      DeliveredClock(states[u], f, again);
      SeenMerged(states[u].replicas[f.via.dst].doc.clock, f.doc.clock);
      if e in Seen(states[u].replicas[f.via.dst].doc.clock) {
        KnownAtReplica(states, steps, t, u, f.via.dst);
      } else {
        var v := FrameOrigin(states, steps, u, f);
        CarriesMeans(states, steps, v, f.via, Send, f.doc);
        KnownHappenedBefore(states, steps, t, v, f.doc);
        OneMoreStep(states, steps, t, v, u);
      }
    case Work(x, act) =>
      CarriesMeans(states, steps, u, x, act, y);
      if act.Clone? {
        KnownAtReplica(states, steps, t, u, x.src);
      } else {
        var v := HeldOrigin(states, steps, u, x);
        CarriesMeans(states, steps, v, x, Clone, y);
        KnownHappenedBefore(states, steps, t, v, y);
        OneMoreStep(states, steps, t, v, u);
      }
    case _ => NothingCarried(states, steps, u, y);
  }

  lemma NothingCarried(states: seq<System>, steps: seq<Step>, t: nat, d: Doc)
    requires t < |steps| && |states| == |steps| + 1 && Carries(states, steps, t, d)
    ensures !steps[t].Notify? && !steps[t].Lose?
  {
  }

  // ----- the theorem -----

  /** The clock of an operation: the one its replica has right after it. */
  function ClockOf(states: seq<System>, steps: seq<Step>, t: nat): Clocks.Clock
    requires |states| == |steps| + 1 && IsOperation(states, steps, t) && steps[t].r in states[t + 1].replicas
  {
    states[t + 1].replicas[steps[t].r].doc.clock
  }

  /** For operations on any replicas at any moments of a run: the clock of `u`
      counts `t` exactly when `t` is `u` or happened before it. */
  lemma ClockCountsPast(states: seq<System>, steps: seq<Step>, t: nat, u: nat)
    requires IsRun(states, steps) && IsOperation(states, steps, t) && IsOperation(states, steps, u)
    ensures steps[t].r in states[t + 1].replicas && steps[u].r in states[u + 1].replicas
    ensures DotAt(states, steps, t) in Seen(ClockOf(states, steps, u)) <==>
            t == u || HappenedBefore(states, steps, t, u)
    ensures Clocks.Leq(ClockOf(states, steps, t), ClockOf(states, steps, u)) <==>
            t == u || HappenedBefore(states, steps, t, u)
  {
    hide Do, Enabled, Init, InRange, EventOf, HappenedBefore, DotAt, LeqCore;
    var e := DotAt(states, steps, t);
    SeenAfterApply(states, steps, t, steps[t].r, e);
    SeenAfterApply(states, steps, u, steps[u].r, e);
    var x, y := states[t + 1].replicas[steps[t].r].doc, states[u + 1].replicas[steps[u].r].doc;
    CarriedAtReplica(states, steps, t, steps[t].r, x);
    CarriedAtReplica(states, steps, u, steps[u].r, y);
    if Clocks.Leq(x.clock, y.clock) {
      SeenOrdered(x.clock, y.clock);
    }
    if e in Seen(y.clock) {
      KnownHappenedBefore(states, steps, t, u, y);
    }
    if HappenedBefore(states, steps, t, u) {
      HappenedBeforeGains(states, steps, t, u, x, y);
      CoreClock(x, y);
      SeenOrdered(x.clock, y.clock);
    }
  }

  lemma CoreClock(a: Doc, b: Doc)
    requires LeqCore(a, b)
    ensures Clocks.Leq(a.clock, b.clock)
  {
  }

  /** Comparing clocks reveals causality: smaller means happened before, greater
      means happened after, equal means the same operation, and incomparable means
      concurrent. */
  lemma ClocksRevealCausality(states: seq<System>, steps: seq<Step>, t: nat, u: nat)
    requires IsRun(states, steps) && IsOperation(states, steps, t) && IsOperation(states, steps, u)
    ensures steps[t].r in states[t + 1].replicas && steps[u].r in states[u + 1].replicas
    ensures var o := Clocks.Compare(ClockOf(states, steps, t), ClockOf(states, steps, u));
            && (o == Some(Clocks.Less) <==> HappenedBefore(states, steps, t, u))
            && (o == Some(Clocks.Greater) <==> HappenedBefore(states, steps, u, t))
            && (o == Some(Clocks.Equal) <==> t == u)
            && (o == None <==>
                t != u && !HappenedBefore(states, steps, t, u) && !HappenedBefore(states, steps, u, t))
  {
    hide Do, Enabled, Init, InRange, EventOf, HappenedBefore, IsOperation, ClockOf, Clocks.Leq;
    ClockCountsPast(states, steps, t, u);
    ClockCountsPast(states, steps, u, t);
    if HappenedBefore(states, steps, t, u) {
      AfterItsCause(states, steps, t, u);
    }
    if HappenedBefore(states, steps, u, t) {
      AfterItsCause(states, steps, u, t);
    }
  }
}
