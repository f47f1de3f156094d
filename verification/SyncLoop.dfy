/** The loops of the sync layer as imperative code. Each loop runs among all other
    tasks and processes: at every await the rest of the system may take any steps
    of its own. Whatever the schedule, the loops take only steps of the system. */
module SyncLoops {
  import opened Base
  import opened TodoDocs
  import opened Network
  import opened Pushes
  import opened Runs
  import Sync
  import opened SyncSchedules
  import opened TodoStates

  // ----- the process of one replica -----

  class Node {
    const id: U64
    /** The shared state behind the lock. */
    const state: TodoState
    /** All replicas, connections and frames, this replica's state included. */
    var sys: System
    /** How often this replica announced a remote update to its browsers. */
    var redraws: nat
    ghost var states: seq<System>
    ghost var steps: seq<Step>

    ghost predicate Valid()
      reads this, state.Parts()
    {
      && this !in state.Parts() && state.Valid()
      && id in sys.replicas && sys.replicas[id] == state.View()
      && id in sys.unnotified && id in sys.logs
      && |states| == |steps| + 1 && states[|steps|] == sys && IsSegment(states, steps)
    }

    constructor (id: U64, state: TodoState, sys: System)
      requires state.Valid() && id in sys.replicas && sys.replicas[id] == state.View()
      requires id in sys.unnotified && id in sys.logs
      ensures Valid() && this.id == id && this.state == state && this.sys == sys
      ensures states == [sys] && steps == [] && redraws == 0
    {
      this.id, this.state, this.sys := id, state, sys;
      redraws, states, steps := 0, [sys], [];
    }

    /** One step of the system, this replica's state updated in place. */
    method Take(step: Step)
      requires Valid() && Enabled(sys, step)
      modifies this, state.Parts()
      ensures Valid() && sys == Do(old(sys), step)
      ensures steps == old(steps) + [step] && states == old(states) + [sys] && redraws == old(redraws)
    {
      hide After, EventOf, Merged, AfterAction, FlightAfter, ActionEnabled, AfterNotify;
      StepAtReplica(sys, step, id);
      StepAtUnnotified(sys, step, id, 0);
      SegmentExtends(states, steps, step);
      if step.Apply? && step.r == id {
        state.Apply(step.msg);
      }
      if step.Deliver? && step.f.via.dst == id {
        var remote := new TodoState.FromWire(step.f.doc);
        state.Merge(remote);
      }
      sys := Do(sys, step);
      steps := steps + [step];
      states := states + [sys];
    }

    /** What all other tasks and processes do while this task waits: every step that
        can be taken in its turn and is not this task's own. `held` notifications
        are owed by the caller, so nobody else fires them. */
    method Others(others: seq<Step>, mine: Option<Edge>, held: nat)
      requires Valid() && held <= sys.unnotified[id]
      modifies this, state.Parts()
      ensures Valid() && held <= sys.unnotified[id] && redraws == old(redraws)
      ensures old(steps) <= steps && old(states) <= states
      ensures mine.Some? ==> Own(steps, mine.value) == Own(old(steps), mine.value)
      ensures mine.Some? ==> Undisturbed(old(sys), sys, mine.value)
      ensures steps == old(steps) + Taken(old(sys), others, mine, id, held)
      ensures others == [] ==> sys == old(sys)
    {
      hide Do, Enabled, IsSegment, Own;
      for n := 0 to |others|
        invariant Valid() && held <= sys.unnotified[id] && redraws == old(redraws)
        invariant old(steps) <= steps && old(states) <= states
        invariant old(steps) + Taken(old(sys), others, mine, id, held) ==
                  steps + Taken(sys, others[n..], mine, id, held)
        invariant mine.Some? ==> Own(steps, mine.value) == Own(old(steps), mine.value)
        invariant mine.Some? ==> Undisturbed(old(sys), sys, mine.value)
        invariant n == 0 ==> sys == old(sys) && steps == old(steps)
      {
        var step := others[n];
        assert others[n..][0] == step && others[n..][1..] == others[n + 1..];
        if MayTake(sys, step, mine, id, held) {
          StepAtUnnotified(sys, step, id, held);
          if mine.Some? {
            ForeignLeavesUndisturbed(sys, step, mine.value);
            OwnOneMore(steps, step, mine.value);
          }
          Take(step);
        }
      }
    }

    // ----- outgoing: crates/crdt-sync/src/lib.rs:185-266 -----

    ghost predicate Mine(e: Edge)
      reads this
    {
      e.src == id && e in sys.workers
    }

    method TakeOwn(e: Edge, act: Action)
      requires Valid() && Mine(e) && ActionEnabled(sys.workers[e], e, act)
      modifies this, state.Parts()
      ensures Valid() && Mine(e) && redraws == old(redraws)
      ensures state.View() == old(state.View())
      ensures steps == old(steps) + [Work(e, act)] && states == old(states) + [sys]
      ensures Own(steps, e) == Own(old(steps), e) + [act]
      ensures sys.workers[e] == AfterAction(old(sys.workers[e]), act, state.View().doc)
      ensures sys.flight == FlightAfter(old(sys.flight), e, old(sys.workers[e]), act)
    {
      hide AfterAction, FlightAfter, ActionEnabled, IsSegment, Own;
      OwnOneMore(steps, Work(e, act), e);
      Take(Work(e, act));
    }

    /** Waits for the read lock and clones. */
    method CloneState(e: Edge, others: seq<Step>) returns (snapshot: Doc)
      requires Valid() && Mine(e) && sys.workers[e].phase.PushDue?
      modifies this, state.Parts()
      ensures Valid() && Mine(e) && redraws == old(redraws)
      ensures old(steps) <= steps && old(states) <= states
      ensures ClonedSince(states, steps, |old(steps)|, e, snapshot)
      ensures steps == old(steps) + Taken(old(sys), others, Some(e), id, 0) + [Work(e, Clone)]
      ensures Own(steps, e) == Own(old(steps), e) + [Clone]
      ensures var was, w := old(sys.workers[e]), sys.workers[e];
              && w.phase == Holding(snapshot) && w.base == was.base && w.sent == was.sent && w.pending >= was.pending
    {
      hide Do, Enabled, IsSegment, Own, ClonedSince;
      Others(others, Some(e), 0);
      snapshot := state.View().doc;
      ghost var before, taken := states, steps;
      TakeOwn(e, Clone);
      ClonedNow(before, taken, sys, |old(steps)|, e);
    }

    /** Writes a cloned snapshot to the connection. */
    method SendMessage(e: Edge, write: Write, snapshot: Doc) returns (ok: bool)
      requires Valid() && Mine(e) && sys.workers[e].phase == Holding(snapshot)
      modifies this, state.Parts()
      ensures Valid() && Mine(e) && redraws == old(redraws)
      ensures old(steps) <= steps && old(states) <= states
      ensures ok <==> write.failure.None?
      ensures steps == old(steps) + Taken(old(sys), write.others, Some(e), id, 0) +
                       [Work(e, if ok then Send else Disconnect(Through(write.failure.value, e)))]
      ensures Own(steps, e) == Own(old(steps), e) +
                [if ok then Send else Disconnect(Through(write.failure.value, e))]
      ensures var was, w := old(sys.workers[e]), sys.workers[e];
              && w.base == was.base && w.pending >= was.pending
              && w.phase == (if ok then Idle else Offline)
              && w.sent == (if ok then was.sent + [snapshot] else was.sent)
      ensures ok ==> Frame(e, snapshot) in sys.flight
      ensures !ok ==> forall f :: f in write.failure.value && f.via == e ==> f !in sys.flight
    {
      hide Do, Enabled, IsSegment, Own, TodoState.View, TodoState.Parts;
      Others(write.others, Some(e), 0);
      ok := write.failure.None?;
      if ok {
        TakeOwn(e, Send);
      } else {
        TakeOwn(e, Disconnect(Through(write.failure.value, e)));
      }
    }

    /** Clones under the read lock, then sends. What is sent is the state at the
        moment of the clone, whatever happens until it is on the wire. */
    method PushState(e: Edge, push: Push) returns (ok: bool, snapshot: Doc, ghost at: nat)
      requires Valid() && Mine(e) && sys.workers[e].phase.PushDue?
      modifies this, state.Parts()
      ensures Valid() && Mine(e) && redraws == old(redraws)
      ensures old(steps) <= steps && old(states) <= states
      ensures ClonedSince(states, steps, |old(steps)|, e, snapshot)
      ensures |old(steps)| <= at < |steps| - 1 && steps[at] == Work(e, Clone)
      ensures steps[..at] == old(steps) + Taken(old(sys), push.beforeLock, Some(e), id, 0)
      ensures steps[at + 1..|steps| - 1] == Taken(states[at + 1], push.write.others, Some(e), id, 0)
      ensures ok <==> push.write.failure.None?
      ensures Own(steps, e) == Own(old(steps), e) + PushActions(e, push)
      ensures var was, w := old(sys.workers[e]), sys.workers[e];
              && w.base == was.base && w.pending >= was.pending
              && w.phase == (if ok then Idle else Offline)
              && w.sent == (if ok then was.sent + [snapshot] else was.sent)
      ensures ok ==> Frame(e, snapshot) in sys.flight
    {
      hide Do, Enabled, IsSegment, Own, ClonedSince, AfterAction, FlightAfter, ActionEnabled, TodoState.View,
        TodoState.Parts;
      snapshot := CloneState(e, push.beforeLock);
      ghost var cloned, taken := states, steps;
      at := |steps| - 1;
      ok := SendMessage(e, push.write, snapshot);
      ClonedLater(cloned, taken, states, steps, |old(steps)|, e, snapshot);
    }

    /** What one branch of the select does once it fires. */
    method React(e: Edge, act: Action, push: Push) returns (outcome: Outcome)
      requires Valid() && Mine(e) && sys.workers[e].phase.Idle?
      requires (act.Wake? || act.Lag? || act.Tick?) && ActionEnabled(sys.workers[e], e, act)
      modifies this, state.Parts()
      ensures Valid() && Mine(e) && redraws == old(redraws)
      ensures old(steps) <= steps && old(states) <= states
      ensures outcome == OutcomeOf(Some(act), push)
      ensures Own(steps, e) == Own(old(steps), e) + ActionsOf(e, push, Some(act))
      ensures |sys.workers[e].sent| == |old(sys.workers[e]).sent| + if outcome.Waiting? then 1 else 0
      ensures SentSince(old(sys.workers[e]).sent, sys.workers[e].sent, states, steps, |old(steps)|, e)
      ensures sys.workers[e].phase == if outcome.Waiting? then Idle else Offline
      ensures sys.workers[e].base == old(sys.workers[e].base)
    {
      hide Do, Enabled, IsSegment, Own, ClonedSince;
      TakeOwn(e, act);
      if act.Lag? {
        return Lagged;
      }
      ghost var from := |steps|;
      var ok, snapshot, _ := PushState(e, push);
      ClonedEarlier(states, steps, |old(steps)|, from, e, snapshot);
      outcome := if ok then Waiting else Failed;
    }

    /** One turn of the select in drive_outgoing. `at` is the moment it resolves. */
    method TakeTurn(e: Edge, turn: Turn) returns (outcome: Outcome, unread: nat, ghost at: nat)
      requires Valid() && Mine(e) && sys.workers[e].phase.Idle?
      modifies this, state.Parts()
      ensures Valid() && Mine(e) && redraws == old(redraws)
      ensures old(steps) <= steps && old(states) <= states
      ensures |old(steps)| <= at <= |steps| && steps[..at] == old(steps) + Taken(old(sys), turn.others, Some(e), id, 0)
      ensures e in states[at].workers && unread == states[at].workers[e].pending
      ensures var act := Chosen(turn.ticked, unread);
              && outcome == OutcomeOf(act, turn.push)
              && Own(steps, e) == Own(old(steps), e) + ActionsOf(e, turn.push, act)
      ensures Turned(old(sys.workers[e]), sys.workers[e], turn, unread, outcome, states, steps, |old(steps)|, e)
      ensures SentSince(old(sys.workers[e]).sent, sys.workers[e].sent, states, steps, |old(steps)|, e)
      ensures sys.workers[e].phase == if outcome.Waiting? then Idle else Offline
      ensures sys.workers[e].base == old(sys.workers[e].base)
    {
      hide Do, Enabled, IsSegment, Own, ClonedSince, ActionsOf;
      Others(turn.others, Some(e), 0);
      at := |steps|;
      unread := sys.workers[e].pending;
      var act := Chosen(turn.ticked, unread);
      outcome := Waiting;
      if act.Some? {
        outcome := React(e, act.value, turn.push);
        SentEarlier(old(sys.workers[e]).sent, sys.workers[e].sent, states, steps, |old(steps)|, at, e);
      } else {
        NoActions(e, turn.push);
      }
    }

    /** The loop of drive_outgoing. */
    method SelectLoop(e: Edge, turns: seq<Turn>) returns (outcome: Outcome, unread: seq<nat>, ghost at: seq<nat>)
      requires Valid() && Mine(e) && sys.workers[e].phase.Idle?
      modifies this, state.Parts()
      ensures Valid() && Mine(e) && redraws == old(redraws)
      ensures old(steps) <= steps && old(states) <= states
      ensures IsLoop(turns, unread, outcome) && Observed(states, e, |old(steps)|, at, unread)
      ensures |sys.workers[e].sent| == |old(sys.workers[e]).sent| + PushesDue(turns, unread)
      ensures Own(steps, e) == Own(old(steps), e) + LoopActions(e, turns, unread)
      ensures SentSince(old(sys.workers[e]).sent, sys.workers[e].sent, states, steps, |old(steps)|, e)
      ensures sys.workers[e].phase == if outcome.Waiting? then Idle else Offline
      ensures sys.workers[e].base == old(sys.workers[e].base)
    {
      hide Do, Enabled, IsSegment, Own, ClonedSince, SentSince, ActionsOf, LoopActions, OutcomeOf, Chosen, Observed,
        TodoState.View, TodoState.Parts, AfterAction, ActionEnabled, IsLoop, PushesDue;
      outcome, unread, at := Waiting, [], [];
      NothingYet(states, steps, sys.workers[e], e, turns);
      assert turns[..|turns|] == turns;
      for n := 0 to |turns|
        invariant Valid() && Mine(e) && redraws == old(redraws)
        invariant old(steps) <= steps && old(states) <= states
        invariant |unread| == n && outcome == Waiting && IsLoop(turns[..n], unread, outcome)
        invariant |sys.workers[e].sent| == |old(sys.workers[e]).sent| + PushesDue(turns, unread)
        invariant Observed(states, e, |old(steps)|, at, unread)
        invariant Own(steps, e) == Own(old(steps), e) + LoopActions(e, turns, unread)
        invariant SentSince(old(sys.workers[e]).sent, sys.workers[e].sent, states, steps, |old(steps)|, e)
        invariant sys.workers[e].phase.Idle? && sys.workers[e].base == old(sys.workers[e].base)
      {
        ghost var sent, seen, taken := sys.workers[e].sent, states, steps;
        ghost var when;
        var pending;
        outcome, pending, when := TakeTurn(e, turns[n]);
        LoopOneMore(e, turns, unread, pending);
        LoopTurns(turns, unread, pending, outcome);
        PushesDueOneMore(turns, unread, pending);
        ObservedOneMore(seen, states, e, |old(steps)|, at, unread, when);
        SentChain(old(sys.workers[e]).sent, sent, sys.workers[e].sent, seen, taken, states, steps, |old(steps)|, e);
        unread, at := unread + [pending], at + [when];
        if outcome != Waiting {
          return;
        }
      }
    }

    /** The Hello and the first push. */
    method Open(e: Edge, c: Connection) returns (ok: bool)
      requires Valid() && Mine(e) && sys.workers[e].phase.PushDue?
      modifies this, state.Parts()
      ensures Valid() && Mine(e) && redraws == old(redraws)
      ensures old(steps) <= steps && old(states) <= states
      ensures ok <==> Opens(c)
      ensures |sys.workers[e].sent| == |old(sys.workers[e]).sent| + if ok then 1 else 0
      ensures Own(steps, e) == Own(old(steps), e) + OpeningActions(e, c)
      ensures SentSince(old(sys.workers[e]).sent, sys.workers[e].sent, states, steps, |old(steps)|, e)
      ensures sys.workers[e].phase == if ok then Idle else Offline
      ensures sys.workers[e].base == old(sys.workers[e].base)
    {
      hide Do, Enabled, IsSegment, Own, ClonedSince, PushActions;
      Others(c.hello.others, Some(e), 0);
      if c.hello.failure.Some? {
        TakeOwn(e, Disconnect(Through(c.hello.failure.value, e)));
        return false;
      }
      ghost var from := |steps|;
      var pushed, snapshot, _ := PushState(e, c.first);
      ClonedEarlier(states, steps, |old(steps)|, from, e, snapshot);
      ok := pushed;
    }

    /** A session of the outgoing task on a connection it has subscribed for. */
    method DriveOutgoing(e: Edge, c: Connection) returns (outcome: Outcome, unread: seq<nat>, ghost at: seq<nat>)
      requires Valid() && Mine(e) && sys.workers[e].phase.PushDue?
      modifies this, state.Parts()
      ensures Valid() && Mine(e) && redraws == old(redraws)
      ensures old(steps) <= steps && old(states) <= states
      ensures IsSession(c, unread, outcome) && Observed(states, e, |old(steps)|, at, unread)
      ensures |sys.workers[e].sent| ==
              |old(sys.workers[e]).sent| + if Opens(c) then 1 + PushesDue(c.turns, unread) else 0
      ensures Own(steps, e) == Own(old(steps), e) + SessionActions(e, c, unread)
      ensures SentSince(old(sys.workers[e]).sent, sys.workers[e].sent, states, steps, |old(steps)|, e)
      ensures sys.workers[e].phase == if outcome.Waiting? then Idle else Offline
      ensures sys.workers[e].base == old(sys.workers[e].base)
    {
      hide Do, Enabled, IsSegment, Own, ClonedSince, OpeningActions, LoopActions, IsLoop, Opens, SentSince, AfterAction,
        ActionEnabled, TodoState.View, TodoState.Parts;
      unread, at := [], [];
      var ok := Open(e, c);
      if !ok {
        return Failed, unread, at;
      }
      ghost var sent, seen, taken := sys.workers[e].sent, states, steps;
      outcome, unread, at := SelectLoop(e, c.turns);
      ObservedEarlier(states, e, |old(steps)|, |taken|, at, unread);
      SentChain(old(sys.workers[e]).sent, sent, sys.workers[e].sent, seen, taken, states, steps, |old(steps)|, e);
    }

    /** One round of the outgoing task: connects, subscribes before anything else,
        and drives the session. */
    method TryOnce(e: Edge, a: Attempt) returns (s: Session, ghost at: seq<nat>)
      requires Valid() && Mine(e) && sys.workers[e].phase.Offline?
      modifies this, state.Parts()
      ensures Valid() && Mine(e) && redraws == old(redraws)
      ensures old(steps) <= steps && old(states) <= states
      ensures IsAttempt(a, s) && Observed(states, e, |old(steps)|, at, s.unread)
      ensures |sys.workers[e].sent| == |old(sys.workers[e]).sent| + AttemptPushes(a, s)
      ensures Own(steps, e) == Own(old(steps), e) + AttemptActions(e, a, s)
      ensures SentSince(old(sys.workers[e]).sent, sys.workers[e].sent, states, steps, |old(steps)|, e)
      ensures sys.workers[e].phase == if s.outcome.Waiting? then Idle else Offline
      ensures sys.workers[e].base == if a.result.Some? then |old(sys.workers[e]).sent| else old(sys.workers[e].base)
    {
      hide Do, Enabled, IsSegment, Own, ClonedSince, SessionActions, IsSession, TodoState.View, TodoState.Parts;
      s, at := Session([], Failed), [];
      Others(a.others, Some(e), 0);
      if a.result.Some? {
        TakeOwn(e, Connect);
        TakeOwn(e, Subscribe);
        ghost var from := |steps|;
        var outcome, unread;
        outcome, unread, at := DriveOutgoing(e, a.result.value);
        s := Session(unread, outcome);
        ObservedEarlier(states, e, |old(steps)|, from, at, unread);
        SentEarlier(old(sys.workers[e]).sent, sys.workers[e].sent, states, steps, |old(steps)|, from, e);
      }
    }

    /** The outgoing task: tries again after every session that ends. */
    method RunOutgoing(e: Edge, attempts: seq<Attempt>) returns (sessions: seq<Session>, ghost at: seq<seq<nat>>)
      requires Valid() && Mine(e) && sys.workers[e].phase.Offline?
      modifies this, state.Parts()
      ensures Valid() && Mine(e) && redraws == old(redraws)
      ensures old(steps) <= steps && old(states) <= states
      ensures AreAttempts(attempts, sessions) && AllObserved(states, e, |old(steps)|, at, sessions)
      ensures |sys.workers[e].sent| == |old(sys.workers[e]).sent| + AllPushes(attempts, sessions)
      ensures Own(steps, e) == Own(old(steps), e) + AllActions(e, attempts, sessions)
      ensures SentSince(old(sys.workers[e]).sent, sys.workers[e].sent, states, steps, |old(steps)|, e)
      ensures sys.workers[e].phase == if StillWaiting(sessions) then Idle else Offline
    {
      hide Do, Enabled, IsSegment, Own, ClonedSince, SentSince, AttemptActions, IsAttempt, Observed, AfterAction,
        ActionEnabled, TodoState.View, TodoState.Parts, AllActions, AreAttempts, AllPushes, AttemptPushes;
      sessions, at := [], [];
      NothingYet(states, steps, sys.workers[e], e, []);
      NoAttempts(e, attempts);
      for n := 0 to |attempts|
        invariant Valid() && Mine(e) && redraws == old(redraws)
        invariant old(steps) <= steps && old(states) <= states
        invariant |sessions| == n && !StillWaiting(sessions) && AreAttempts(attempts[..n], sessions)
        invariant AllObserved(states, e, |old(steps)|, at, sessions)
        invariant |sys.workers[e].sent| == |old(sys.workers[e]).sent| + AllPushes(attempts, sessions)
        invariant Own(steps, e) == Own(old(steps), e) + AllActions(e, attempts[..n], sessions)
        invariant SentSince(old(sys.workers[e]).sent, sys.workers[e].sent, states, steps, |old(steps)|, e)
        invariant sys.workers[e].phase.Offline?
      {
        ghost var sent, seen, taken := sys.workers[e].sent, states, steps;
        var s;
        ghost var more;
        s, more := TryOnce(e, attempts[n]);
        AttemptsOneMore(e, attempts, sessions, s);
        AllPushesOneMore(attempts, sessions, s);
        AllObservedOneMore(seen, states, e, |old(steps)|, |taken|, at, sessions, more, s);
        SentChain(old(sys.workers[e]).sent, sent, sys.workers[e].sent, seen, taken, states, steps, |old(steps)|, e);
        sessions, at := sessions + [s], at + [more];
        if s.outcome.Waiting? {
          return;
        }
      }
      assert attempts[..|attempts|] == attempts;
    }

    // ----- incoming: crates/crdt-sync/src/lib.rs:153-183 -----

    /** Reads one arrival and merges it, under the write lock, if it is a state; a
        state that is not in flight to this replica cannot arrive. */
    method Receive(i: Incoming) returns (here: bool, ghost at: nat)
      requires Valid()
      modifies this, state.Parts()
      ensures Valid() && old(steps) <= steps && old(states) <= states
      ensures |old(steps)| <= at <= |steps| && Reads(id, states, steps, at, i.arrival, here)
      ensures steps[..at] == old(steps) + Taken(old(sys), i.others, None, id, 0)
      ensures redraws == old(redraws) + (if here then 1 else 0) && (here ==> i.arrival.State?)
      ensures i.others == [] ==>
                state.View() == if here then Received(old(state.View()), i.arrival.f.doc) else old(state.View())
    {
      hide IsSegment, Received;
      Others(i.others, None, 0);
      at := |steps|;
      var a := i.arrival;
      here := a.State? && a.f in sys.flight && a.f.via.dst == id;
      if here {
        Take(Deliver(a.f, a.again));
        redraws := redraws + 1;
      }
    }

    /** Greets, then merges every state that arrives and announces each merge, until
        something arrives that cannot be read. `arrived` says which states were in
        flight to this replica when it was their turn, at the moments `at`. */
    method ServeIncoming(others: seq<Step>, helloFails: bool, incoming: seq<Incoming>)
      returns (ok: bool, merged: seq<Doc>, arrived: seq<bool>, ghost at: seq<nat>)
      requires Valid()
      modifies this, state.Parts()
      ensures Valid() && old(steps) <= steps && old(states) <= states
      ensures ok <==> !helloFails && Readable(incoming) == |incoming|
      ensures |arrived| == (if helloFails then 0 else Readable(incoming)) && merged == Read(incoming, arrived)
      ensures AllReads(id, states, steps, |old(steps)|, incoming, at, arrived)
      ensures redraws == old(redraws) + |merged|
      ensures others == [] && Undisturbing(incoming) ==> state.View() == ReceivedAll(old(state.View()), merged)
    {
      hide Do, Enabled, IsSegment, Merged, Received, Reads, AllReads, Read, ReceivedAll, Readable, TodoState.View,
        TodoState.Parts;
      merged, arrived, at := [], [], [];
      ghost var start, from := state.View(), |steps|;
      NothingRead(id, states, steps, from, incoming);
      Others(others, None, 0);
      AllReadsLater(id, old(states), old(steps), states, steps, from, incoming, at, arrived);
      if helloFails {
        return false, merged, arrived, at;
      }
      for n := 0 to |incoming|
        invariant Valid() && old(steps) <= steps && old(states) <= states
        invariant |arrived| == n <= Readable(incoming) && merged == Read(incoming, arrived)
        invariant AllReads(id, states, steps, from, incoming, at, arrived)
        invariant redraws == old(redraws) + |merged|
        invariant others == [] && Undisturbing(incoming) ==> state.View() == ReceivedAll(start, merged)
      {
        if incoming[n].arrival.Broken? {
          return false, merged, arrived, at;
        }
        ghost var seen, taken := states, steps;
        var here;
        ghost var when;
        here, when := Receive(incoming[n]);
        ReadOneMore(incoming, arrived, here);
        AllReadsOneMore(id, seen, taken, states, steps, from, incoming, at, arrived, when, here);
        arrived, at := arrived + [here], at + [when];
        if here {
          ReceivedOneMore(start, merged, incoming[n].arrival.f.doc);
          merged := merged + [incoming[n].arrival.f.doc];
        }
      }
      ok := true;
    }

    // ----- crates/todo-app/src/server.rs:111-118 -----

    /** Applies the message to the shared state under the lock and only then hands
        every outgoing task of this replica its notification. */
    method ApplyAndNotify(before: seq<Step>, msg: ClientMessage, between: seq<Step>) returns (ghost at: nat)
      requires Valid()
      modifies this, state.Parts()
      ensures Valid() && redraws == old(redraws)
      ensures old(steps) <= steps && old(states) <= states
      ensures |old(steps)| <= at < |steps| - 1 && steps[at] == Apply(id, msg) && steps[|steps| - 1] == Notify(id)
      ensures steps[..at] == old(steps) + Taken(old(sys), before, None, id, 0)
      ensures steps[at + 1..|steps| - 1] == Taken(states[at + 1], between, None, id, 1)
      ensures id in states[at].replicas && id in states[at + 1].replicas
      ensures states[at + 1].replicas[id] == After(states[at].replicas[id], msg)
      ensures sys.workers == Notified(states[|steps| - 1].workers, id)
    {
      hide IsSegment, After, EventOf, Notified;
      Others(before, None, 0);
      at := |steps|;
      Take(Apply(id, msg));
      Others(between, None, 1);
      Take(Notify(id));
    }
  }
  // ----- what the run theorems say about the loops -----

  /** Whatever loops a node went through, and whatever else happened meanwhile: from
      an initial system on it is a run. */
  lemma NodeRuns(node: Node)
    requires node.Valid() && Init(node.states[0]) && InRange(node.sys)
    ensures IsRun(node.states, node.steps)
  {
    hide Do, Enabled, Init, InRange;
  }

  /** An outgoing task that waits with nothing to read, while no local message still
      has its notification ahead, has sent all local operations on its connection. */
  lemma WaitingTaskIsUpToDate(node: Node, e: Edge) returns (last: Doc)
    requires node.Valid() && node.Mine(e) && Init(node.states[0]) && InRange(node.sys)
    requires node.sys.workers[e].phase.Idle? && node.sys.workers[e].pending == 0 && node.sys.unnotified[node.id] == 0
    ensures var w := node.sys.workers[e];
            w.base < |w.sent| && last == w.sent[|w.sent| - 1]
    ensures node.id in node.sys.peers && node.id in node.sys.logs
    ensures forall k :: 0 <= k < |node.sys.logs[node.id]| ==>
                          Sync.Includes(last, node.sys.peers[node.id], node.sys.logs, node.sys.logs[node.id][k])
  {
    hide Do, Enabled, Init, InRange, Sync.Includes;
    NodeRuns(node);
    last := Sync.NoLostWakeup(node.states, node.steps, |node.steps|, e);
  }

  /** What serve_incoming merged stays contained in the replica, flags aside. */
  lemma MergedForGood(node: Node, from: nat, incoming: seq<Incoming>, at: seq<nat>, arrived: seq<bool>, n: nat)
    requires node.Valid() && Init(node.states[0]) && InRange(node.sys)
    requires AllReads(node.id, node.states, node.steps, from, incoming, at, arrived) && n < |arrived| && arrived[n]
    ensures incoming[n].arrival.State? && LeqCore(incoming[n].arrival.f.doc, node.state.View().doc)
  {
    hide Do, Enabled, Init, InRange, LeqCore;
    NodeRuns(node);
    DeliveredForGood(node.states, node.steps, at[n], |node.steps|, incoming[n].arrival.f, incoming[n].arrival.again);
  }
}
