/** Every step of the system keeps the invariant. */
module Invariants {
  import opened Base
  import opened TodoIds
  import opened TodoDocs
  import opened Histories
  import opened Network
  import opened LocalSteps
  import Clocks = VectorClocks

  // ----- a local operation -----

  /** The id about to be handed out is in no event so far. */
  lemma NextIdIsFresh(peers: map<U64, string>, replicas: map<U64, Replica>, logs: Logs, r: U64, ev: Event)
    requires PeersDistinct(peers) && AddsOk(peers, replicas, logs)
    requires r in peers && r in replicas && replicas[r].peerId == peers[r]
    requires replicas[r].nextLocalId < U64_MAX && Fits(replicas[r], ev)
    ensures NotYetAdded(logs, ev)
  {
    if ev.Added? {
      forall e | InLogs(logs, e) && EventAt(logs, e).Added? ensures EventAt(logs, e).id != ev.id {
        assert AddOk(peers, replicas, logs, e);
        PrintIdInjective(peers[e.replica], EventAt(logs, e).n, peers[r], ev.n);
      }
    }
  }

  lemma AffectedReplicaOk(peer: string, r: U64, log: seq<Event>, rep: Replica, ev: Event)
    requires ReplicaOk(peer, r, log, rep) && |log| < U64_MAX && Fits(rep, ev)
    ensures ReplicaOk(peer, r, log + [ev],
                      rep.(doc := Affected(rep.doc, r, peer, ev),
                           nextLocalId := if ev.Added? then ev.n else rep.nextLocalId))
    ensures Clocks.Leq(rep.doc.clock, Affected(rep.doc, r, peer, ev).clock)
  {
    var d' := Affected(rep.doc, r, peer, ev);
    Clocks.IncrementIsStrict(rep.doc.clock, r);
    assert Clocks.Get(d'.clock, r) == |log| + 1;
    forall n | 1 <= n <= (if ev.Added? then ev.n else rep.nextLocalId) ensures PrintId(peer, n) in d'.added {
      assert n <= rep.nextLocalId ==> PrintId(peer, n) in rep.doc.added;
    }
  }

  lemma ExtendedAddsOk(peers: map<U64, string>, replicas: map<U64, Replica>, logs: Logs, r: U64, ev: Event,
                       replicas': map<U64, Replica>)
    requires r in logs && r in peers && r in replicas
    requires AddsOk(peers, replicas, logs) && Fits(replicas[r], ev) && replicas[r].peerId == peers[r]
    requires replicas[r].nextLocalId < U64_MAX
    requires replicas'.Keys == replicas.Keys
    requires forall p :: p in replicas ==> replicas[p].nextLocalId <= replicas'[p].nextLocalId
    requires ev.Added? ==> replicas'[r].nextLocalId == ev.n
    ensures AddsOk(peers, replicas', Extended(logs, r, ev))
  {
    ExtendedEvents(logs, r, ev);
    forall e | InLogs(Extended(logs, r, ev), e) ensures AddOk(peers, replicas', Extended(logs, r, ev), e) {
      if InLogs(logs, e) {
        assert AddOk(peers, replicas, logs, e);
      }
    }
  }

  lemma ExtendedUnique(logs: Logs, r: U64, ev: Event)
    requires r in logs && UniqueIds(logs) && NotYetAdded(logs, ev)
    ensures UniqueIds(Extended(logs, r, ev))
  {
    ExtendedEvents(logs, r, ev);
  }

  /** A worker stays fine when its sender's clock moves up and either its log
      stays the same or a notification is on its way. */
  lemma WorkerStaysOk(src: U64, now: Clocks.Clock, log: seq<Event>, un: nat, w: Worker,
                      now': Clocks.Clock, log': seq<Event>, un': nat)
    requires WorkerOk(src, now, log, un, w) && Clocks.Leq(now, now')
    requires un' > 0 || (log' == log && un' == un)
    ensures WorkerOk(src, now', log', un', w)
  {
    forall i | 0 <= i < |w.sent| ensures Clocks.Leq(w.sent[i].clock, now') {
      Clocks.LeqTransitive(w.sent[i].clock, now, now');
    }
    if w.phase.Holding? {
      Clocks.LeqTransitive(w.phase.doc.clock, now, now');
    }
  }

  lemma FrameStaysOk(replicas: map<U64, Replica>, replicas': map<U64, Replica>, f: Frame)
    requires FrameOk(replicas, f) && replicas'.Keys == replicas.Keys
    requires Clocks.Leq(replicas[f.via.src].doc.clock, replicas'[f.via.src].doc.clock)
    ensures FrameOk(replicas', f)
  {
    Clocks.LeqTransitive(f.doc.clock, replicas[f.via.src].doc.clock, replicas'[f.via.src].doc.clock);
  }

  ghost predicate ClocksRise(replicas: map<U64, Replica>, replicas': map<U64, Replica>) {
    && replicas'.Keys == replicas.Keys
    && forall r :: r in replicas ==> Clocks.Leq(replicas[r].doc.clock, replicas'[r].doc.clock)
  }

  lemma OneClockRises(replicas: map<U64, Replica>, r: U64, rep: Replica)
    requires r in replicas && Clocks.Leq(replicas[r].doc.clock, rep.doc.clock)
    ensures ClocksRise(replicas, replicas[r := rep])
  {
    forall p | p in replicas ensures Clocks.Leq(replicas[p].doc.clock, replicas[r := rep][p].doc.clock) {
    }
  }

  lemma FlightStaysOk(replicas: map<U64, Replica>, replicas': map<U64, Replica>, flight: set<Frame>, flight': set<Frame>)
    requires FlightOk(replicas, flight) && ClocksRise(replicas, replicas') && flight' <= flight
    ensures FlightOk(replicas', flight')
  {
    hide Clocks.Leq;
    forall f | f in flight' ensures FrameOk(replicas', f) {
      assert FrameOk(replicas, f);
      FrameStaysOk(replicas, replicas', f);
    }
  }

  lemma WorkersStayOk(replicas: map<U64, Replica>, logs: Logs, un: map<U64, nat>, workers: map<Edge, Worker>,
                      replicas': map<U64, Replica>, logs': Logs, un': map<U64, nat>)
    requires WorkersOk(replicas, logs, un, workers) && ClocksRise(replicas, replicas')
    requires logs'.Keys == logs.Keys && un'.Keys == un.Keys
    requires forall r :: r in logs && r in un ==> un'[r] > 0 || (logs'[r] == logs[r] && un'[r] == un[r])
    ensures WorkersOk(replicas', logs', un', workers)
  {
    hide WorkerOk, Clocks.Leq;
    forall e | e in workers ensures EdgeOk(replicas', logs', un', e, workers[e]) {
      assert EdgeOk(replicas, logs, un, e, workers[e]);
      WorkerStaysOk(e.src, replicas[e.src].doc.clock, logs[e.src], un[e.src], workers[e],
                    replicas'[e.src].doc.clock, logs'[e.src], un'[e.src]);
    }
  }

  /** Only the acting replica's state is new. */
  lemma ReplicaStepOccurs(s: System, s': System, r: U64, d: Doc)
    requires r in s.replicas && r in s'.replicas && s'.replicas == s.replicas[r := s'.replicas[r]]
    requires s'.workers == s.workers && s'.flight <= s.flight
    requires Occurs(s', d) && d != s'.replicas[r].doc
    ensures Occurs(s, d)
  {
  }

  lemma EventKeepsExplained(s: System, s': System, r: U64, ev: Event)
    requires Shape(s) && r in s.peers && AllExplained(s)
    requires s'.peers == s.peers && s'.workers == s.workers && s'.flight == s.flight
    requires s'.logs == Extended(s.logs, r, ev)
    requires r in s'.replicas && s'.replicas == s.replicas[r := s'.replicas[r]]
    requires Explains(s.peers, s'.logs, s'.replicas[r].doc)
    ensures AllExplained(s')
  {
    ExtendedEvents(s.logs, r, ev);
    hide Explains, Extended;
    forall d | Occurs(s', d) ensures Explains(s'.peers, s'.logs, d) {
      if d != s'.replicas[r].doc {
        ReplicaStepOccurs(s, s', r, d);
        GrowExplained(s.peers, s.logs, s'.logs, d);
      }
    }
  }

  lemma ReplicasStayOk(peers: map<U64, string>, replicas: map<U64, Replica>, logs: Logs, r: U64, rep: Replica, log: seq<Event>)
    requires ReplicasOk(peers, replicas, logs)
    requires r in peers ==> ReplicaOk(peers[r], r, log, rep)
    ensures ReplicasOk(peers, replicas[r := rep], logs[r := log])
  {
    hide ReplicaOk;
    var replicas', logs' := replicas[r := rep], logs[r := log];
    forall p | p in peers && p in replicas' && p in logs' ensures ReplicaOk(peers[p], p, logs'[p], replicas'[p]) {
    }
  }

  lemma InvAtReplica(s: System, r: U64)
    requires Inv(s) && r in s.peers
    ensures r in s.replicas && r in s.logs && r in s.unnotified
    ensures ReplicaOk(s.peers[r], r, s.logs[r], s.replicas[r])
    ensures Occurs(s, s.replicas[r].doc) && Explains(s.peers, s.logs, s.replicas[r].doc)
  {
    hide ReplicaOk, Explains, UniqueIds, AddsOk, FlightOk, WorkersOk, PeersDistinct;
    assert Occurs(s, s.replicas[r].doc);
  }

  lemma InvAtFrame(s: System, f: Frame)
    requires Inv(s) && f in s.flight
    ensures f.via.src in s.peers && f.via.dst in s.peers && FrameOk(s.replicas, f)
    ensures Occurs(s, f.doc) && Explains(s.peers, s.logs, f.doc)
  {
    hide ReplicasOk, Explains, UniqueIds, AddsOk, WorkersOk, PeersDistinct, Clocks.Leq;
    assert Occurs(s, f.doc);
  }

  lemma InvAtEdge(s: System, e: Edge)
    requires Inv(s) && e in s.workers
    ensures e.src in s.peers && e.dst in s.peers
    ensures e.src in s.replicas && e.src in s.logs && e.src in s.unnotified
    ensures WorkerOk(e.src, s.replicas[e.src].doc.clock, s.logs[e.src], s.unnotified[e.src], s.workers[e])
  {
    hide ReplicasOk, AllExplained, UniqueIds, AddsOk, FlightOk, PeersDistinct, WorkerOk;
    assert EdgeOk(s.replicas, s.logs, s.unnotified, e, s.workers[e]);
  }

  lemma ReplicaFacts(peer: string, r: U64, log: seq<Event>, rep: Replica)
    requires ReplicaOk(peer, r, log, rep)
    ensures rep.nextLocalId <= |log| <= U64_MAX && rep.peerId == peer && rep.replicaId == r
    ensures Clocks.Get(rep.doc.clock, r) == |log|
  {
  }

  lemma AppliedEvent(s: System, r: U64, msg: ClientMessage, ev: Event)
    requires Enabled(s, Apply(r, msg)) && EventOf(s.replicas[r], msg) == Some(ev)
    ensures Applied(s, r, msg) ==
            s.(replicas := s.replicas[r := After(s.replicas[r], msg)],
               unnotified := s.unnotified[r := s.unnotified[r] + 1],
               logs := Extended(s.logs, r, ev))
  {
    hide After, EventOf;
  }

  lemma AppliedNothing(s: System, r: U64, msg: ClientMessage)
    requires Enabled(s, Apply(r, msg)) && EventOf(s.replicas[r], msg).None?
    ensures Applied(s, r, msg) == s.(unnotified := s.unnotified[r := s.unnotified[r] + 1])
  {
    hide After, EventOf;
    EffectOf(s.replicas[r], msg);
    assert s.replicas[r := s.replicas[r]] == s.replicas && s.logs[r := s.logs[r]] == s.logs;
  }

  /** An effective local operation, with its result named. */
  lemma EventReplica(s: System, r: U64, msg: ClientMessage) returns (ev: Event, rep': Replica)
    requires Inv(s) && Enabled(s, Apply(r, msg)) && EventOf(s.replicas[r], msg).Some? && |s.logs[r]| < U64_MAX
    ensures Applied(s, r, msg) ==
            s.(replicas := s.replicas[r := rep'], unnotified := s.unnotified[r := s.unnotified[r] + 1],
               logs := Extended(s.logs, r, ev))
    ensures NotYetAdded(s.logs, ev) && Fits(s.replicas[r], ev)
    ensures ReplicaOk(s.peers[r], r, s.logs[r] + [ev], rep')
    ensures Clocks.Leq(s.replicas[r].doc.clock, rep'.doc.clock)
    ensures Explains(s.peers, Extended(s.logs, r, ev), rep'.doc)
    ensures s.replicas[r].nextLocalId <= rep'.nextLocalId
    ensures ev.Added? ==> rep'.nextLocalId == ev.n
  {
    hide EventOf, After, Applied, Explains, Fits, Affected, NotYetAdded, ReplicaOk, ReplicasOk, AddsOk, UniqueIds,
      AllExplained, FlightOk, WorkersOk, PeersDistinct, Clocks.Leq;
    var rep := s.replicas[r];
    ev := EventOf(rep, msg).value;
    rep' := After(rep, msg);
    EffectOf(rep, msg);
    InvAtReplica(s, r);
    ReplicaFacts(s.peers[r], r, s.logs[r], rep);
    AppliedEvent(s, r, msg, ev);
    AffectedReplicaOk(s.peers[r], r, s.logs[r], rep, ev);
    NextIdIsFresh(s.peers, s.replicas, s.logs, r, ev);
    AffectedExplained(s.peers, s.logs, rep, r, ev);
    FitsNext(rep, ev);
  }

  lemma EventKeepsInv(s: System, r: U64, msg: ClientMessage)
    requires Inv(s) && Enabled(s, Apply(r, msg)) && EventOf(s.replicas[r], msg).Some? && |s.logs[r]| < U64_MAX
    ensures Inv(Applied(s, r, msg))
  {
    hide Applied, EventOf, After, Explains, UniqueIds, AddsOk, PeersDistinct, FlightOk, WorkersOk, ReplicasOk, ReplicaOk,
      AllExplained, Fits, NotYetAdded, Clocks.Leq;
    var ev, rep' := EventReplica(s, r, msg);
    var s' := Applied(s, r, msg);
    InvAtReplica(s, r);
    ReplicaFacts(s.peers[r], r, s.logs[r], s.replicas[r]);
    ReplicasStayOk(s.peers, s.replicas, s.logs, r, rep', s.logs[r] + [ev]);
    ExtendedAddsOk(s.peers, s.replicas, s.logs, r, ev, s'.replicas);
    ExtendedUnique(s.logs, r, ev);
    EventKeepsExplained(s, s', r, ev);
    OneClockRises(s.replicas, r, rep');
    FlightStaysOk(s.replicas, s'.replicas, s.flight, s'.flight);
    WorkersStayOk(s.replicas, s.logs, s.unnotified, s.workers, s'.replicas, s'.logs, s'.unnotified);
  }

  lemma FitsNext(rep: Replica, ev: Event)
    requires Fits(rep, ev) && rep.nextLocalId < U64_MAX
    ensures ev.Added? ==> ev.n == rep.nextLocalId + 1
  {
  }

  lemma NoEventKeepsInv(s: System, r: U64, msg: ClientMessage)
    requires Inv(s) && Enabled(s, Apply(r, msg)) && EventOf(s.replicas[r], msg).None?
    ensures Inv(Applied(s, r, msg))
  {
    hide Applied, EventOf, After, Explains, UniqueIds, AddsOk, PeersDistinct, FlightOk, WorkersOk, ReplicasOk, Clocks.Leq,
      ClocksRise;
    var s' := Applied(s, r, msg);
    AppliedNothing(s, r, msg);
    forall d | Occurs(s', d) ensures Occurs(s, d) {
    }
    SameClocksRise(s.replicas);
    WorkersStayOk(s.replicas, s.logs, s.unnotified, s.workers, s'.replicas, s'.logs, s'.unnotified);
  }

  lemma SameClocksRise(replicas: map<U64, Replica>)
    ensures ClocksRise(replicas, replicas)
  {
  }

  // ----- a delivery -----

  /** Nobody's entry for a replica exceeds that replica's own count. */
  lemma EntryWithinLog(peers: map<U64, string>, logs: Logs, d: Doc, r: U64)
    requires Explains(peers, logs, d)
    ensures Clocks.Get(d.clock, r) <= if r in logs then |logs[r]| else 0
  {
    var entry := Clocks.Get(d.clock, r);
    if entry > 0 {
      assert Dot(r, entry) in Seen(d.clock);
      assert InLogs(logs, Dot(r, entry));
    }
  }

  lemma ReceivedReplicaOk(peer: string, r: U64, log: seq<Event>, rep: Replica, d: Doc)
    requires ReplicaOk(peer, r, log, rep) && Clocks.Get(d.clock, r) <= |log|
    ensures ReplicaOk(peer, r, log, Received(rep, d))
    ensures Clocks.Leq(rep.doc.clock, Received(rep, d).doc.clock)
    ensures Received(rep, d).nextLocalId == rep.nextLocalId
  {
    Clocks.MergeIsLub(rep.doc.clock, d.clock, rep.doc.clock);
    Clocks.MergedGet(rep.doc.clock, d.clock, r);
  }

  lemma DeliverKeepsExplained(s: System, f: Frame, again: bool)
    requires AllExplained(s) && UniqueIds(s.logs) && Enabled(s, Deliver(f, again))
    ensures AllExplained(Delivered(s, f, again))
  {
    var s' := Delivered(s, f, again);
    assert Occurs(s, s.replicas[f.via.dst].doc) && Occurs(s, f.doc);
    hide Explains, UniqueIds, Merged;
    MergeExplained(s.peers, s.logs, s.replicas[f.via.dst].doc, f.doc);
    forall d | Occurs(s', d) ensures Explains(s'.peers, s'.logs, d) {
      if d != s'.replicas[f.via.dst].doc {
        ReplicaStepOccurs(s, s', f.via.dst, d);
      }
    }
  }

  lemma AddsStayOk(peers: map<U64, string>, replicas: map<U64, Replica>, logs: Logs, r: U64, rep: Replica)
    requires AddsOk(peers, replicas, logs) && r in replicas && rep.nextLocalId == replicas[r].nextLocalId
    ensures AddsOk(peers, replicas[r := rep], logs)
  {
    forall e | InLogs(logs, e) ensures AddOk(peers, replicas[r := rep], logs, e) {
      assert AddOk(peers, replicas, logs, e);
    }
  }

  lemma DeliverKeepsInv(s: System, f: Frame, again: bool)
    requires Inv(s) && Enabled(s, Deliver(f, again))
    ensures Inv(Delivered(s, f, again))
  {
    hide Explains, AllExplained, UniqueIds, AddsOk, PeersDistinct, FlightOk, FrameOk, WorkersOk, ReplicaOk, ReplicasOk,
      Clocks.Leq, ClocksRise, Received, Occurs;
    var r := f.via.dst;
    var s' := Delivered(s, f, again);
    InvAtFrame(s, f);
    InvAtReplica(s, r);
    DeliverKeepsExplained(s, f, again);
    EntryWithinLog(s.peers, s.logs, f.doc, r);
    ReceivedReplicaOk(s.peers[r], r, s.logs[r], s.replicas[r], f.doc);
    ReplicasStayOk(s.peers, s.replicas, s.logs, r, s'.replicas[r], s.logs[r]);
    assert s.logs[r := s.logs[r]] == s.logs;
    AddsStayOk(s.peers, s.replicas, s.logs, r, s'.replicas[r]);
    OneClockRises(s.replicas, r, s'.replicas[r]);
    FlightStaysOk(s.replicas, s'.replicas, s.flight, s'.flight);
    WorkersStayOk(s.replicas, s.logs, s.unnotified, s.workers, s'.replicas, s'.logs, s'.unnotified);
  }

  // ----- steps of the outgoing workers and of the network -----

  lemma WorkOccurs(s: System, e: Edge, act: Action, d: Doc)
    requires Enabled(s, Work(e, act)) && Occurs(Worked(s, e, act), d)
    ensures Occurs(s, d)
  {
    var s' := Worked(s, e, act);
    var w, w' := s.workers[e], s'.workers[e];
    assert w'.phase == Holding(d) ==> w.phase == Holding(d) || d == s.replicas[e.src].doc;
    assert d in w'.sent ==> d in w.sent || w.phase == Holding(d);
    if f :| f in s'.flight && f.doc == d && f !in s.flight {
      assert w.phase == Holding(d);
    }
  }

  lemma ActionKeepsWorker(src: U64, current: Doc, log: seq<Event>, un: nat, w: Worker, e: Edge, act: Action)
    requires WorkerOk(src, current.clock, log, un, w) && ActionEnabled(w, e, act)
    requires Clocks.Get(current.clock, src) == |log|
    ensures WorkerOk(src, current.clock, log, un, AfterAction(w, act, current))
  {
  }

  lemma ActionKeepsFlight(replicas: map<U64, Replica>, flight: set<Frame>, e: Edge, w: Worker, act: Action)
    requires FlightOk(replicas, flight) && e.src in replicas && e.dst in replicas
    requires w.phase.Holding? ==> Clocks.Leq(w.phase.doc.clock, replicas[e.src].doc.clock)
    ensures FlightOk(replicas, FlightAfter(flight, e, w, act))
  {
  }

  lemma HeldBelow(src: U64, now: Clocks.Clock, log: seq<Event>, un: nat, w: Worker)
    requires WorkerOk(src, now, log, un, w) && w.phase.Holding?
    ensures Clocks.Leq(w.phase.doc.clock, now)
  {
  }

  lemma WorkKeepsInv(s: System, e: Edge, act: Action)
    requires Inv(s) && Enabled(s, Work(e, act))
    ensures Inv(Worked(s, e, act))
  {
    hide Explains, UniqueIds, PeersDistinct, AddsOk, ReplicaOk, ReplicasOk, AfterAction, FlightAfter, ActionEnabled,
      FlightOk, WorkerOk, Occurs;
    var s' := Worked(s, e, act);
    InvAtEdge(s, e);
    InvAtReplica(s, e.src);
    ReplicaFacts(s.peers[e.src], e.src, s.logs[e.src], s.replicas[e.src]);
    ActionKeepsWorker(e.src, s.replicas[e.src].doc, s.logs[e.src], s.unnotified[e.src], s.workers[e], e, act);
    if s.workers[e].phase.Holding? {
      HeldBelow(e.src, s.replicas[e.src].doc.clock, s.logs[e.src], s.unnotified[e.src], s.workers[e]);
    }
    ActionKeepsFlight(s.replicas, s.flight, e, s.workers[e], act);
    forall d | Occurs(s', d) ensures Occurs(s, d) {
      WorkOccurs(s, e, act, d);
    }
    forall x | x in s'.workers ensures EdgeOk(s.replicas, s.logs, s.unnotified, x, s'.workers[x]) {
      assert x in s.workers && EdgeOk(s.replicas, s.logs, s.unnotified, x, s.workers[x]);
    }
  }

  lemma NotifyKeepsWorker(src: U64, now: Clocks.Clock, log: seq<Event>, un: nat, w: Worker)
    requires WorkerOk(src, now, log, un, w) && un > 0
    ensures WorkerOk(src, now, log, un - 1, AfterNotify(w))
  {
  }

  lemma NotifyOccurs(s: System, r: U64, d: Doc)
    requires Enabled(s, Notify(r)) && Occurs(NotifiedAll(s, r), d)
    ensures Occurs(s, d)
  {
  }

  lemma NotifyKeepsInv(s: System, r: U64)
    requires Inv(s) && Enabled(s, Notify(r))
    ensures Inv(NotifiedAll(s, r))
  {
    hide Explains, UniqueIds, PeersDistinct, AddsOk, ReplicasOk, FlightOk, WorkerOk, AfterNotify, Occurs;
    var s' := NotifiedAll(s, r);
    forall d | Occurs(s', d) ensures Occurs(s, d) {
      NotifyOccurs(s, r, d);
    }
    forall e | e in s'.workers ensures EdgeOk(s.replicas, s.logs, s'.unnotified, e, s'.workers[e]) {
      assert EdgeOk(s.replicas, s.logs, s.unnotified, e, s.workers[e]);
      if e.src == r {
        NotifyKeepsWorker(r, s.replicas[r].doc.clock, s.logs[r], s.unnotified[r], s.workers[e]);
      }
    }
  }

  lemma LoseKeepsInv(s: System, f: Frame)
    requires Inv(s)
    ensures Inv(Lost(s, f))
  {
    var s' := Lost(s, f);
    hide Explains, UniqueIds, PeersDistinct, AddsOk, ReplicasOk, WorkersOk, FlightOk;
    SameClocksRise(s.replicas);
    FlightStaysOk(s.replicas, s.replicas, s.flight, s'.flight);
    forall d | Occurs(s', d) ensures Occurs(s, d) {
    }
  }

  lemma StepKeepsInv(s: System, step: Step)
    requires Inv(s) && Enabled(s, step) && InRange(Do(s, step))
    ensures Inv(Do(s, step))
  {
    hide Inv, EventOf, Worked, Delivered, Lost, NotifiedAll;
    match step
    case Apply(r, msg) =>
      if EventOf(s.replicas[r], msg).Some? {
        assert |Do(s, step).logs[r]| == |s.logs[r]| + 1;
        EventKeepsInv(s, r, msg);
      } else {
        NoEventKeepsInv(s, r, msg);
      }
    case Notify(r) => NotifyKeepsInv(s, r);
    case Work(e, act) => WorkKeepsInv(s, e, act);
    case Deliver(f, again) => DeliverKeepsInv(s, f, again);
    case Lose(f) => LoseKeepsInv(s, f);
  }

  lemma EmptyExplained(peers: map<U64, string>, logs: Logs)
    ensures Explains(peers, logs, EMPTY)
  {
    assert Seen(EMPTY.clock) == {};
  }

  lemma InitOccurs(s: System, d: Doc)
    requires Init(s) && Occurs(s, d)
    ensures d == EMPTY
  {
  }

  lemma InitReplicas(s: System)
    requires Init(s)
    ensures ReplicasOk(s.peers, s.replicas, s.logs)
    ensures AddsOk(s.peers, s.replicas, s.logs) && UniqueIds(s.logs)
  {
    forall e ensures !InLogs(s.logs, e) {
    }
  }

  lemma OfflineWorkerOk(src: U64, now: Clocks.Clock, log: seq<Event>, un: nat)
    ensures WorkerOk(src, now, log, un, Worker(Offline, 0, [], 0))
  {
  }

  lemma InitInv(s: System)
    requires Init(s)
    ensures Inv(s)
  {
    hide Explains, ReplicasOk, AddsOk, UniqueIds, Occurs, WorkerOk;
    forall e | e in s.workers ensures EdgeOk(s.replicas, s.logs, s.unnotified, e, s.workers[e]) {
      OfflineWorkerOk(e.src, s.replicas[e.src].doc.clock, s.logs[e.src], s.unnotified[e.src]);
    }
    EmptyExplained(s.peers, s.logs);
    InitReplicas(s);
    forall d | Occurs(s, d) ensures d == EMPTY {
      InitOccurs(s, d);
    }
  }
}
