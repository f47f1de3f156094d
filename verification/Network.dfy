/** The replicas and their sync connections as one system of interleaved steps:
    crates/crdt-sync/src/lib.rs:153-266 and apply_and_broadcast in
    crates/todo-app/src/server.rs:111-120. */
module Network {
  import opened Base
  import opened TodoIds
  import opened TodoDocs
  import opened Histories
  import Clocks = VectorClocks

  /** A configured outgoing connection. A peer listed several times gets several
      outgoing tasks, told apart by their place in the list. */
  datatype Edge = Edge(src: U64, dst: U64, place: nat)

  /** A serialized state on its way: the skipped fields are not part of it. */
  datatype Frame = Frame(via: Edge, doc: Doc)

  /** Where the outgoing worker of an edge stands. */
  datatype Phase =
    | Offline            // connecting, or sleeping before the next attempt
    | Connected          // TcpStream::connect returned, not subscribed yet
    | PushDue            // inside push_state, before the read lock
    | Holding(doc: Doc)  // inside push_state, snapshot cloned, not yet sent
    | Idle               // waiting in select!

  /** `pending` counts unread notifications; `sent` lists every snapshot the edge
      ever sent, those from `base` on over the current connection. */
  datatype Worker = Worker(phase: Phase, pending: nat, sent: seq<Doc>, base: nat) {
    predicate Subscribed() {
      phase.PushDue? || phase.Holding? || phase.Idle?
    }
  }

  /** Keyed by replica id, so replica ids are distinct; `unnotified` counts local
      messages applied but not yet followed by their notification. `logs` and
      `sent` are history only: no step depends on them. */
  datatype System = System(
    peers: map<U64, string>,
    replicas: map<U64, Replica>,
    unnotified: map<U64, nat>,
    workers: map<Edge, Worker>,
    flight: set<Frame>,
    logs: Logs)

  /** The broadcast channel keeps this many notifications per receiver. */
  const CHANNEL_CAPACITY := 16

  /** What an outgoing worker can do next. */
  datatype Action =
    | Connect
    | Subscribe
    | Wake                              // recv() returned a notification
    | Lag                               // recv() failed: too many unread
    | Tick                              // anti-entropy timer
    | Clone                             // under the read lock
    | Send
    | Disconnect(lost: set<Frame>)      // losing any part of what is in flight

  datatype Step =
    | Apply(r: U64, msg: ClientMessage) // under the write lock
    | Notify(r: U64)                    // later, outside the lock
    | Work(e: Edge, act: Action)
    | Deliver(f: Frame, again: bool)    // merge under the write lock
    | Lose(f: Frame)

  /** The event a local message amounts to; None if it changes nothing. */
  function EventOf(s: Replica, msg: ClientMessage): Option<Event> {
    match msg
    case Add(text) =>
      if Trim(text) == "" then None
      else
        var n := WrappingAdd(s.nextLocalId, 1);
        Some(Added(n, PrintId(s.peerId, n), Trim(text)))
    case Toggle(id) =>
      if id !in s.doc.added || id in s.doc.removed then None else Some(Toggled(id, Flag(s.doc.completed, id)))
    case Delete(id) =>
      if id !in s.doc.added then None else Some(Deleted(id))
    case Resync => None
  }

  function Logged(log: seq<Event>, ev: Option<Event>): seq<Event> {
    match ev
    case None => log
    case Some(e) => log + [e]
  }

  predicate ActionEnabled(w: Worker, e: Edge, act: Action) {
    match act
    case Connect => w.phase.Offline?
    case Subscribe => w.phase.Connected?
    case Wake => w.phase.Idle? && 0 < w.pending <= CHANNEL_CAPACITY
    case Lag => w.phase.Idle? && w.pending > CHANNEL_CAPACITY
    case Tick => w.phase.Idle?
    case Clone => w.phase.PushDue?
    case Send => w.phase.Holding?
    case Disconnect(lost) => forall f :: f in lost ==> f.via == e
  }

  predicate Enabled(s: System, step: Step) {
    match step
    case Apply(r, msg) => r in s.replicas && r in s.logs && r in s.unnotified
    case Notify(r) => r in s.unnotified && s.unnotified[r] > 0
    case Work(e, act) => e in s.workers && e.src in s.replicas && ActionEnabled(s.workers[e], e, act)
    case Deliver(f, again) => f in s.flight && f.via.dst in s.replicas
    case Lose(f) => true
  }

  /** `current` is the sender's state at this moment. */
  function AfterAction(w: Worker, act: Action, current: Doc): Worker {
    match act
    case Connect => w.(phase := Connected)
    case Subscribe => w.(phase := PushDue, pending := 0, base := |w.sent|)
    case Wake => w.(phase := PushDue, pending := if w.pending > 0 then w.pending - 1 else 0)
    case Tick => w.(phase := PushDue)
    case Clone => w.(phase := Holding(current))
    case Send => w.(phase := Idle, sent := if w.phase.Holding? then w.sent + [w.phase.doc] else w.sent)
    case Lag => w.(phase := Offline)
    case Disconnect(lost) => w.(phase := Offline)
  }

  function FlightAfter(flight: set<Frame>, e: Edge, w: Worker, act: Action): set<Frame> {
    match act
    case Send => if w.phase.Holding? then flight + {Frame(e, w.phase.doc)} else flight
    case Disconnect(lost) => flight - lost
    case _ => flight
  }

  function AfterNotify(w: Worker): Worker {
    if w.Subscribed() then w.(pending := w.pending + 1) else w
  }

  function Notified(workers: map<Edge, Worker>, r: U64): map<Edge, Worker> {
    map e | e in workers :: if e.src == r then AfterNotify(workers[e]) else workers[e]
  }

  function Received(rep: Replica, d: Doc): Replica {
    rep.(doc := Merged(rep.doc, d))
  }

  function Applied(s: System, r: U64, msg: ClientMessage): System
    requires Enabled(s, Apply(r, msg))
  {
    s.(replicas := s.replicas[r := After(s.replicas[r], msg)],
       unnotified := s.unnotified[r := s.unnotified[r] + 1],
       logs := s.logs[r := Logged(s.logs[r], EventOf(s.replicas[r], msg))])
  }

  function NotifiedAll(s: System, r: U64): System
    requires Enabled(s, Notify(r))
  {
    s.(unnotified := s.unnotified[r := s.unnotified[r] - 1], workers := Notified(s.workers, r))
  }

  function Worked(s: System, e: Edge, act: Action): System
    requires Enabled(s, Work(e, act))
  {
    s.(workers := s.workers[e := AfterAction(s.workers[e], act, s.replicas[e.src].doc)],
       flight := FlightAfter(s.flight, e, s.workers[e], act))
  }

  function Delivered(s: System, f: Frame, again: bool): System
    requires Enabled(s, Deliver(f, again))
  {
    s.(replicas := s.replicas[f.via.dst := Received(s.replicas[f.via.dst], f.doc)],
       flight := if again then s.flight else s.flight - {f})
  }

  function Lost(s: System, f: Frame): System {
    s.(flight := s.flight - {f})
  }

  function Do(s: System, step: Step): System
    requires Enabled(s, step)
  {
    match step
    case Apply(r, msg) => Applied(s, r, msg)
    case Notify(r) => NotifiedAll(s, r)
    case Work(e, act) => Worked(s, e, act)
    case Deliver(f, again) => Delivered(s, f, again)
    case Lose(f) => Lost(s, f)
  }

  ghost predicate PeersDistinct(peers: map<U64, string>) {
    forall p, q :: p in peers && q in peers && peers[p] == peers[q] ==> p == q
  }

  /** Peer ids are distinct; every replica starts empty and every worker offline. */
  ghost predicate Init(s: System) {
    && PeersDistinct(s.peers)
    && s.replicas.Keys == s.peers.Keys && s.unnotified.Keys == s.peers.Keys && s.logs.Keys == s.peers.Keys
    && (forall r :: r in s.peers ==>
                      s.replicas[r] == Fresh(s.peers[r], r) && s.unnotified[r] == 0 && s.logs[r] == [])
    && (forall e :: e in s.workers ==>
                      e.src in s.peers && e.dst in s.peers && s.workers[e] == Worker(Offline, 0, [], 0))
    && s.flight == {}
  }

  /** Every replica has performed fewer than 2^64 effective operations. */
  ghost predicate InRange(s: System) {
    forall r :: r in s.logs ==> |s.logs[r]| <= U64_MAX
  }

  ghost predicate IsRun(states: seq<System>, steps: seq<Step>) {
    && |states| == |steps| + 1
    && Init(states[0])
    && InRange(states[|steps|])
    && forall t :: 0 <= t < |steps| ==> Enabled(states[t], steps[t]) && states[t + 1] == Do(states[t], steps[t])
  }

  /** Somewhere in the system: held by a replica, in flight, cloned, or sent in the past. */
  ghost predicate Occurs(s: System, d: Doc) {
    || (exists r :: r in s.replicas && s.replicas[r].doc == d)
    || (exists f :: f in s.flight && f.doc == d)
    || (exists e :: e in s.workers && (s.workers[e].phase == Holding(d) || d in s.workers[e].sent))
  }

  // ----- the invariant -----

  ghost predicate Shape(s: System) {
    && PeersDistinct(s.peers)
    && s.replicas.Keys == s.peers.Keys && s.unnotified.Keys == s.peers.Keys && s.logs.Keys == s.peers.Keys
    && (forall e :: e in s.workers ==> e.src in s.peers && e.dst in s.peers)
  }

  ghost predicate ReplicaOk(peer: string, r: U64, log: seq<Event>, rep: Replica) {
    && rep.peerId == peer && rep.replicaId == r
    && Clocks.Get(rep.doc.clock, r) == |log| <= U64_MAX
    && rep.nextLocalId <= |log|
    && (forall n :: 1 <= n <= rep.nextLocalId ==> PrintId(peer, n) in rep.doc.added)
  }

  ghost predicate ReplicasOk(peers: map<U64, string>, replicas: map<U64, Replica>, logs: Logs) {
    forall r :: r in peers && r in replicas && r in logs ==> ReplicaOk(peers[r], r, logs[r], replicas[r])
  }

  /** An add event carries its replica's own printed id, within its counter, and a
      nonempty text without outer whitespace. */
  ghost predicate AddOk(peers: map<U64, string>, replicas: map<U64, Replica>, logs: Logs, e: Dot) {
    InLogs(logs, e) && EventAt(logs, e).Added? ==>
      && e.replica in peers && e.replica in replicas
      && var ev := EventAt(logs, e);
      && ev.id == PrintId(peers[e.replica], ev.n)
      && 1 <= ev.n <= replicas[e.replica].nextLocalId
      && ev.text != "" && IsTrimmed(ev.text)
  }

  ghost predicate AddsOk(peers: map<U64, string>, replicas: map<U64, Replica>, logs: Logs) {
    forall e :: InLogs(logs, e) ==> AddOk(peers, replicas, logs, e)
  }

  ghost predicate AllExplained(s: System) {
    forall d :: Occurs(s, d) ==> Explains(s.peers, s.logs, d)
  }

  /** What is in flight is behind its sender. */
  ghost predicate FrameOk(replicas: map<U64, Replica>, f: Frame) {
    && f.via.src in replicas && f.via.dst in replicas
    && Clocks.Leq(f.doc.clock, replicas[f.via.src].doc.clock)
  }

  ghost predicate FlightOk(replicas: map<U64, Replica>, flight: set<Frame>) {
    forall f :: f in flight ==> FrameOk(replicas, f)
  }

  /** Either `d` has all of the sender's local operations, or someone is still
      going to wake the worker. */
  ghost predicate Caught(d: Doc, src: U64, log: seq<Event>, pending: nat, unnotified: nat) {
    Clocks.Get(d.clock, src) == |log| || pending > 0 || unnotified > 0
  }

  /** Everything sent so far is an increasing chain below the sender's clock. */
  ghost predicate ChainBelow(sent: seq<Doc>, now: Clocks.Clock) {
    && (forall i, j :: 0 <= i < j < |sent| ==> Clocks.Leq(sent[i].clock, sent[j].clock))
    && (forall i :: 0 <= i < |sent| ==> Clocks.Leq(sent[i].clock, now))
  }

  ghost predicate WorkerOk(src: U64, now: Clocks.Clock, log: seq<Event>, unnotified: nat, w: Worker) {
    && w.base <= |w.sent|
    && ChainBelow(w.sent, now)
    && (w.phase.Holding? ==>
          && Clocks.Leq(w.phase.doc.clock, now)
          && ChainBelow(w.sent, w.phase.doc.clock)
          && Caught(w.phase.doc, src, log, w.pending, unnotified))
    && (w.phase.Idle? ==>
          && w.base < |w.sent|
          && Caught(w.sent[|w.sent| - 1], src, log, w.pending, unnotified))
  }

  ghost predicate EdgeOk(replicas: map<U64, Replica>, logs: Logs, unnotified: map<U64, nat>, e: Edge, w: Worker) {
    && e.src in replicas && e.src in logs && e.src in unnotified
    && WorkerOk(e.src, replicas[e.src].doc.clock, logs[e.src], unnotified[e.src], w)
  }

  ghost predicate WorkersOk(replicas: map<U64, Replica>, logs: Logs, unnotified: map<U64, nat>, workers: map<Edge, Worker>) {
    forall e :: e in workers ==> EdgeOk(replicas, logs, unnotified, e, workers[e])
  }

  ghost predicate Inv(s: System) {
    && Shape(s)
    && ReplicasOk(s.peers, s.replicas, s.logs)
    && AddsOk(s.peers, s.replicas, s.logs)
    && UniqueIds(s.logs)
    && AllExplained(s)
    && FlightOk(s.replicas, s.flight)
    && WorkersOk(s.replicas, s.logs, s.unnotified, s.workers)
  }
}
