/** That a push gets through when nothing fails: after a reconnect from any state,
    and after a local change. */
module Pushes {
  import opened Base
  import opened TodoDocs
  import opened Histories
  import opened Network
  import opened Invariants

  /** The steps can be taken one after the other, from the first state on. */
  ghost predicate IsSegment(states: seq<System>, steps: seq<Step>) {
    && |states| == |steps| + 1
    && forall t :: 0 <= t < |steps| ==> Enabled(states[t], steps[t]) && states[t + 1] == Do(states[t], steps[t])
  }

  /** push_state and its delivery. */
  function PushSteps(e: Edge, d: Doc): seq<Step> {
    [Work(e, Clone), Work(e, Send), Deliver(Frame(e, d), false)]
  }

  /** The receiver has merged `d` into what it had, nothing else about replicas and
      logs changed, and the worker waits again. */
  ghost predicate Arrived(s: System, s': System, e: Edge, d: Doc) {
    && e.dst in s.replicas && e in s.workers && e in s'.workers
    && s'.replicas == s.replicas[e.dst := Received(s.replicas[e.dst], d)]
    && s'.workers[e] == s.workers[e].(phase := Idle, sent := s.workers[e].sent + [d])
    && s'.logs == s.logs && s'.unnotified == s.unnotified
  }

  /** From a worker that is due, the clone, the frame and its delivery: the receiver
      merges exactly the sender's state and no other replica changes. */
  lemma DuePushArrives(s: System, e: Edge) returns (states: seq<System>)
    requires Shape(s) && e in s.workers && s.workers[e].phase.PushDue?
    ensures e.src in s.replicas
    ensures IsSegment(states, PushSteps(e, s.replicas[e.src].doc)) && states[0] == s
    ensures Arrived(s, states[|states| - 1], e, s.replicas[e.src].doc)
  {
    hide PeersDistinct, Received;
    var d := s.replicas[e.src].doc;
    var s1 := Do(s, Work(e, Clone));
    var s2 := Do(s1, Work(e, Send));
    var s3 := Do(s2, Deliver(Frame(e, d), false));
    states := [s, s1, s2, s3];
  }

  lemma SegmentsJoin(xs: seq<System>, p: seq<Step>, ys: seq<System>, q: seq<Step>)
    requires IsSegment(xs, p) && IsSegment(ys, q) && ys[0] == xs[|p|]
    ensures IsSegment(xs + ys[1..], p + q)
  {
    hide Do, Enabled;
    var states, steps := xs + ys[1..], p + q;
    forall t | 0 <= t < |steps|
      ensures Enabled(states[t], steps[t]) && states[t + 1] == Do(states[t], steps[t])
    {
      if t < |p| {
        assert states[t] == xs[t] && states[t + 1] == xs[t + 1] && steps[t] == p[t];
      } else {
        assert states[t] == ys[t - |p|] && states[t + 1] == ys[t - |p| + 1] && steps[t] == q[t - |p|];
      }
    }
  }

  lemma TwoSegments(xs: seq<System>, p: seq<Step>, ys: seq<System>, q: seq<Step>) returns (states: seq<System>)
    requires IsSegment(xs, p) && IsSegment(ys, q) && ys[0] == xs[|p|]
    ensures IsSegment(states, p + q) && states[0] == xs[0] && states[|p + q|] == ys[|q|]
  {
    hide Do, Enabled;
    states := xs + ys[1..];
    SegmentsJoin(xs, p, ys, q);
  }

  // ----- getting a worker to push -----

  /** What brings a worker from where it stands to its next push. */
  function DueSteps(e: Edge, w: Worker): seq<Step> {
    match w.phase
    case Offline => [Work(e, Connect), Work(e, Subscribe)]
    case Connected => [Work(e, Subscribe)]
    case PushDue => []
    case Holding(d) => [Work(e, Send), Work(e, Tick)]
    case Idle =>
      if w.pending == 0 then [Work(e, Tick)]
      else if w.pending <= CHANNEL_CAPACITY then [Work(e, Wake)]
      else [Work(e, Lag), Work(e, Connect), Work(e, Subscribe)]
  }

  /** Only the worker and the network moved, and the worker is due. */
  ghost predicate OnlyDue(s: System, s': System, e: Edge) {
    && s'.peers == s.peers && s'.replicas == s.replicas && s'.logs == s.logs && s'.unnotified == s.unnotified
    && s'.workers.Keys == s.workers.Keys && s.flight <= s'.flight
    && e in s'.workers && s'.workers[e].phase.PushDue?
  }

  lemma BecomesDue(s: System, e: Edge) returns (states: seq<System>)
    requires e in s.workers && e.src in s.replicas
    ensures IsSegment(states, DueSteps(e, s.workers[e])) && states[0] == s
    ensures OnlyDue(s, states[|states| - 1], e)
  {
    var steps := DueSteps(e, s.workers[e]);
    states := [s];
    if |steps| > 0 {
      states := states + [Do(states[0], steps[0])];
    }
    if |steps| > 1 {
      states := states + [Do(states[1], steps[1])];
    }
    if |steps| > 2 {
      states := states + [Do(states[2], steps[2])];
    }
  }

  /** The receiver of the edge contains `d`, flags included, and its worker waits. */
  ghost predicate Contains(s: System, e: Edge, d: Doc) {
    && e.dst in s.replicas && Leq(d, s.replicas[e.dst].doc)
    && e in s.workers && s.workers[e].phase.Idle?
  }

  lemma ReceivedContains(s: System, src: U64, dst: U64)
    requires Inv(s) && src in s.peers && dst in s.peers
    ensures src in s.replicas && dst in s.replicas
    ensures Leq(s.replicas[src].doc, Received(s.replicas[dst], s.replicas[src].doc).doc)
  {
    hide Leq, Merged, Explains, UniqueIds, ReplicaOk, Consistent, PeersDistinct, ReplicasOk, AddsOk, FlightOk, WorkersOk,
      AllExplained;
    InvAtReplica(s, src);
    InvAtReplica(s, dst);
    ExplainedConsistent(s.peers, s.logs, s.replicas[dst].doc, s.replicas[src].doc);
    MergeAboveRightIff(s.replicas[dst].doc, s.replicas[src].doc);
  }

  function CatchUpSteps(s: System, e: Edge): seq<Step>
    requires e in s.workers && e.src in s.replicas
  {
    DueSteps(e, s.workers[e]) + PushSteps(e, s.replicas[e.src].doc)
  }

  /** Wherever a worker stands, offline, in the middle of a push, waiting or
      lagging: it can go on, and when its next push has arrived the receiver
      contains all that the sender holds, flags included. */
  lemma CatchesUp(s: System, e: Edge) returns (states: seq<System>)
    requires Inv(s) && e in s.workers
    ensures e.src in s.replicas
    ensures IsSegment(states, CatchUpSteps(s, e)) && states[0] == s
    ensures Contains(states[|states| - 1], e, s.replicas[e.src].doc)
  {
    hide PeersDistinct, Received, ReplicasOk, AddsOk, UniqueIds, AllExplained, FlightOk, WorkersOk, Leq, Do, Enabled,
      IsSegment, DueSteps;
    var d := s.replicas[e.src].doc;
    var due := BecomesDue(s, e);
    var push := DuePushArrives(due[|due| - 1], e);
    SegmentLength(due, DueSteps(e, s.workers[e]));
    SegmentLength(push, PushSteps(e, d));
    states := TwoSegments(due, DueSteps(e, s.workers[e]), push, PushSteps(e, d));
    SegmentLength(states, CatchUpSteps(s, e));
    ReceivedContains(s, e.src, e.dst);
  }

  lemma SegmentLength(states: seq<System>, steps: seq<Step>)
    requires IsSegment(states, steps)
    ensures |states| == |steps| + 1
  {
  }

  /** So the edge catches up after losing its connection with any part of what was
      in flight. */
  lemma ReconnectCatchesUp(s: System, e: Edge, lost: set<Frame>) returns (states: seq<System>)
    requires Inv(s) && e in s.workers
    requires forall f :: f in lost ==> f.via == e
    ensures e.src in s.replicas && Enabled(s, Work(e, Disconnect(lost)))
    ensures var broken := Do(s, Work(e, Disconnect(lost)));
            && e in broken.workers && IsSegment(states, CatchUpSteps(broken, e)) && states[0] == broken
            && Contains(states[|states| - 1], e, s.replicas[e.src].doc)
  {
    hide Inv, IsSegment, Contains, CatchUpSteps;
    InvAtEdge(s, e);
    WorkKeepsInv(s, e, Disconnect(lost));
    states := CatchesUp(Do(s, Work(e, Disconnect(lost))), e);
  }

  /** Push on change: a local message is applied and notified, and then, wherever
      the worker stands, its next push brings the message's effect to the other side. */
  lemma ChangeIsPushed(s: System, e: Edge, msg: ClientMessage) returns (changed: System, states: seq<System>)
    requires Inv(s) && e in s.workers
    requires e.src in s.logs && InRange(s) && |s.logs[e.src]| < U64_MAX
    ensures e.src in s.replicas && Enabled(s, Apply(e.src, msg))
    ensures Enabled(Do(s, Apply(e.src, msg)), Notify(e.src))
    ensures changed == Do(Do(s, Apply(e.src, msg)), Notify(e.src))
    ensures e in changed.workers && e.src in changed.replicas
    ensures IsSegment(states, CatchUpSteps(changed, e)) && states[0] == changed
    ensures Contains(states[|states| - 1], e, After(s.replicas[e.src], msg).doc)
  {
    hide Inv, IsSegment, Contains, CatchUpSteps, InRange, After, EventOf;
    InvAtEdge(s, e);
    changed := ChangeIsNotified(s, e.src, msg);
    InvAtEdge(changed, e);
    states := CatchesUp(changed, e);
  }

  lemma ChangeIsNotified(s: System, r: U64, msg: ClientMessage) returns (changed: System)
    requires Inv(s) && r in s.peers && r in s.logs && InRange(s) && |s.logs[r]| < U64_MAX
    ensures r in s.replicas && Enabled(s, Apply(r, msg)) && Enabled(Do(s, Apply(r, msg)), Notify(r))
    ensures changed == Do(Do(s, Apply(r, msg)), Notify(r)) && Inv(changed)
    ensures changed.workers.Keys == s.workers.Keys
    ensures r in changed.replicas && changed.replicas[r] == After(s.replicas[r], msg)
  {
    hide Inv, InRange, After, EventOf, AfterNotify;
    InvAtReplica(s, r);
    LoggedFits(s, r, msg);
    StepKeepsInv(s, Apply(r, msg));
    NotifyKeepsInv(Do(s, Apply(r, msg)), r);
    changed := Do(Do(s, Apply(r, msg)), Notify(r));
  }

  lemma LoggedFits(s: System, r: U64, msg: ClientMessage)
    requires Enabled(s, Apply(r, msg)) && InRange(s) && |s.logs[r]| < U64_MAX
    ensures InRange(Applied(s, r, msg))
  {
    hide After, EventOf;
  }
}
