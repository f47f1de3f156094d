/** What the loops of the sync layer can meet at their awaits, and what they have to
    do then: the specification of the imperative code in SyncLoop.dfy. */
module SyncSchedules {
  import opened Base
  import opened TodoDocs
  import opened Network
  import opened Pushes

  // ----- own steps and foreign steps -----

  /** Not a step of the outgoing task of edge `mine`. */
  predicate Foreign(step: Step, mine: Option<Edge>) {
    mine.Some? && step.Work? ==> step.e != mine.value
  }

  /** The actions that the task of edge `e` took. */
  function Own(steps: seq<Step>, e: Edge): seq<Action> {
    if steps == [] then []
    else
      var last := steps[|steps| - 1];
      Own(steps[..|steps| - 1], e) + if last.Work? && last.e == e then [last.act] else []
  }

  lemma OwnOneMore(steps: seq<Step>, step: Step, e: Edge)
    ensures Own(steps + [step], e) == Own(steps, e) + if step.Work? && step.e == e then [step.act] else []
  {
    assert (steps + [step])[..|steps|] == steps;
  }

  /** The edge's task did nothing meanwhile: its notifications may have become more. */
  ghost predicate Undisturbed(s: System, s': System, e: Edge) {
    e in s.workers ==>
      && e in s'.workers
      && s'.workers[e].phase == s.workers[e].phase
      && s'.workers[e].sent == s.workers[e].sent && s'.workers[e].base == s.workers[e].base
      && s'.workers[e].pending >= s.workers[e].pending
  }

  lemma ForeignLeavesUndisturbed(s: System, step: Step, e: Edge)
    requires Enabled(s, step) && Foreign(step, Some(e))
    ensures Undisturbed(s, Do(s, step), e)
  {
    hide EventOf, After, Received, FlightAfter, AfterAction, ActionEnabled;
  }

  lemma StepAtReplica(s: System, step: Step, id: U64)
    requires Enabled(s, step) && id in s.replicas
    ensures id in Do(s, step).replicas
    ensures Do(s, step).replicas[id] ==
            if step.Apply? && step.r == id then After(s.replicas[id], step.msg)
            else if step.Deliver? && step.f.via.dst == id then Received(s.replicas[id], step.f.doc)
            else s.replicas[id]
  {
    hide EventOf, After, Received, FlightAfter, AfterAction, ActionEnabled;
  }

  lemma StepAtUnnotified(s: System, step: Step, id: U64, held: nat)
    requires Enabled(s, step) && id in s.unnotified && s.unnotified[id] >= held
    requires step == Notify(id) ==> s.unnotified[id] > held
    ensures id in Do(s, step).unnotified && Do(s, step).unnotified[id] >= held
  {
    hide EventOf, After, Received, FlightAfter, AfterAction, ActionEnabled;
  }

  lemma SegmentExtends(states: seq<System>, steps: seq<Step>, step: Step)
    requires IsSegment(states, steps) && Enabled(states[|steps|], step)
    ensures IsSegment(states + [Do(states[|steps|], step)], steps + [step])
  {
    hide Enabled, Do;
  }

  /** More notifications are owed at `id` than those that the task owes itself. */
  predicate Owes(s: System, id: U64, held: nat) {
    id in s.unnotified && s.unnotified[id] > held
  }

  /** A step that others can take now, while this task waits: it is not the task's
      own and fires none of the `held` notifications that the task owes itself. */
  predicate MayTake(s: System, step: Step, mine: Option<Edge>, id: U64, held: nat) {
    && Enabled(s, step) && Foreign(step, mine)
    && (step == Notify(id) ==> Owes(s, id, held))
  }

  /** Which of the scheduled steps others do take: each that can be taken in its turn. */
  function Taken(s: System, others: seq<Step>, mine: Option<Edge>, id: U64, held: nat): seq<Step>
    decreases |others|
  {
    if others == [] then []
    else if MayTake(s, others[0], mine, id, held) then
      [others[0]] + Taken(Do(s, others[0]), others[1..], mine, id, held)
    else
      Taken(s, others[1..], mine, id, held)
  }

  lemma SegmentTail(states: seq<System>, steps: seq<Step>)
    requires IsSegment(states, steps) && steps != []
    ensures IsSegment(states[1..], steps[1..])
  {
    hide Do, Enabled;
    var later, rest := states[1..], steps[1..];
    forall t | 0 <= t < |rest| ensures Enabled(later[t], rest[t]) && later[t + 1] == Do(later[t], rest[t]) {
      assert rest[t] == steps[t + 1] && later[t] == states[t + 1] && later[t + 1] == states[t + 1 + 1];
    }
  }

  /** Any interference that is possible can be scheduled, step by step. */
  lemma {:induction false} TakenAll(states: seq<System>, others: seq<Step>, mine: Option<Edge>, id: U64, held: nat)
    requires IsSegment(states, others)
    requires forall k :: 0 <= k < |others| ==> Foreign(others[k], mine)
    requires forall k :: 0 <= k < |others| && others[k] == Notify(id) ==> Owes(states[k], id, held)
    ensures Taken(states[0], others, mine, id, held) == others
    decreases |others|
  {
    hide Do, Enabled, Foreign;
    if others != [] {
      var rest, later := others[1..], states[1..];
      SegmentTail(states, others);
      assert Enabled(states[0], others[0]) && states[0 + 1] == Do(states[0], others[0]);
      forall k | 0 <= k < |rest|
        ensures Foreign(rest[k], mine) && (rest[k] == Notify(id) ==> Owes(later[k], id, held))
      {
        assert rest[k] == others[k + 1] && later[k] == states[k + 1];
      }
      TakenAll(later, rest, mine, id, held);
    }
  }

  // ----- what a loop meets at its awaits -----

  /** What happens while a message is written; a failed write ends the connection
      with some loss. */
  datatype Write = Write(others: seq<Step>, failure: Option<set<Frame>>)

  datatype Push = Push(beforeLock: seq<Step>, write: Write)

  /** One turn of the select: what happens while waiting, and whether the ticker is
      the branch that fires. */
  datatype Turn = Turn(others: seq<Step>, ticked: bool, push: Push)

  /** What an accepted connection meets: the Hello, the first push, the turns. */
  datatype Connection = Connection(hello: Write, first: Push, turns: seq<Turn>)

  /** One attempt to connect, after sleeping and waiting. */
  datatype Attempt = Attempt(others: seq<Step>, result: Option<Connection>)

  /** How drive_outgoing leaves off: still waiting when the turns run out, ended by a
      lagging receiver, or ended by a failed write. */
  datatype Outcome = Waiting | Lagged | Failed

  /** How an attempt went: the lengths of the queue at its turns, and its end. */
  datatype Session = Session(unread: seq<nat>, outcome: Outcome)

  /** What serve_incoming reads next. */
  datatype Arrival = Hello(peerId: string) | State(f: Frame, again: bool) | Broken

  datatype Incoming = Incoming(others: seq<Step>, arrival: Arrival)

  /** What the select does with `unread` notifications in the queue. */
  function Chosen(ticked: bool, unread: nat): Option<Action> {
    if ticked then Some(Tick)
    else if unread > CHANNEL_CAPACITY then Some(Lag)
    else if unread > 0 then Some(Wake)
    else None
  }

  /** Only this connection's own frames are lost with it. */
  function Through(lost: set<Frame>, e: Edge): set<Frame> {
    set f | f in lost && f.via == e
  }

  function PushActions(e: Edge, push: Push): seq<Action> {
    match push.write.failure
    case None => [Clone, Send]
    case Some(lost) => [Clone, Disconnect(Through(lost, e))]
  }

  function ActionsOf(e: Edge, push: Push, act: Option<Action>): seq<Action> {
    match act
    case None => []
    case Some(Lag) => [Lag]
    case Some(a) => [a] + PushActions(e, push)
  }

  lemma NoActions(e: Edge, push: Push)
    ensures ActionsOf(e, push, None) == []
  {
  }

  function OutcomeOf(act: Option<Action>, push: Push): Outcome {
    match act
    case None => Waiting
    case Some(Lag) => Lagged
    case _ => if push.write.failure.None? then Waiting else Failed
  }

  /** `d` was cloned for edge `e` at some moment from `from` on: it is the state that
      the sender had right then. */
  ghost predicate ClonedSince(states: seq<System>, steps: seq<Step>, from: nat, e: Edge, d: Doc) {
    exists u :: from <= u < |steps| && u < |states| && steps[u] == Work(e, Clone)
                && e.src in states[u].replicas && states[u].replicas[e.src].doc == d
  }

  /** Whatever was sent meanwhile was cloned meanwhile. */
  ghost predicate SentSince(was: seq<Doc>, sent: seq<Doc>, states: seq<System>, steps: seq<Step>, from: nat, e: Edge) {
    && was <= sent
    && forall k :: |was| <= k < |sent| ==> ClonedSince(states, steps, from, e, sent[k])
  }

  lemma SentEarlier(was: seq<Doc>, sent: seq<Doc>, states: seq<System>, steps: seq<Step>, from: nat, from': nat,
                    e: Edge)
    requires from <= from' && SentSince(was, sent, states, steps, from', e)
    ensures SentSince(was, sent, states, steps, from, e)
  {
    hide ClonedSince;
    forall k | |was| <= k < |sent| ensures ClonedSince(states, steps, from, e, sent[k]) {
      ClonedEarlier(states, steps, from, from', e, sent[k]);
    }
  }

  lemma SentChain(was: seq<Doc>, mid: seq<Doc>, sent: seq<Doc>, states: seq<System>, steps: seq<Step>,
                  states': seq<System>, steps': seq<Step>, from: nat, e: Edge)
    requires states <= states' && steps <= steps' && from <= |steps|
    requires SentSince(was, mid, states, steps, from, e) && SentSince(mid, sent, states', steps', |steps|, e)
    ensures SentSince(was, sent, states', steps', from, e)
  {
    hide ClonedSince;
    forall k | |was| <= k < |sent| ensures ClonedSince(states', steps', from, e, sent[k]) {
      if k < |mid| {
        ClonedLater(states, steps, states', steps', from, e, mid[k]);
      } else {
        ClonedEarlier(states', steps', from, |steps|, e, sent[k]);
      }
    }
  }

  /** What a turn of the select has to come to, in terms of the connection alone:
      with the ticker fired or 1 to 16 notifications unread the state is pushed once,
      unless the write fails; with more unread the session ends; with none the task
      goes on waiting. */
  ghost predicate Turned(was: Worker, w: Worker, turn: Turn, unread: nat, outcome: Outcome,
                         states: seq<System>, steps: seq<Step>, from: nat, e: Edge) {
    if turn.ticked || 0 < unread <= 16 then
      if turn.push.write.failure.None? then
        && outcome == Waiting && w.phase == Idle
        && |w.sent| == |was.sent| + 1 && was.sent <= w.sent
        && ClonedSince(states, steps, from, e, w.sent[|was.sent|])
      else
        outcome == Failed && w.phase == Offline && w.sent == was.sent
    else if unread > 16 then
      outcome == Lagged && w.phase == Offline && w.sent == was.sent
    else
      outcome == Waiting && w.phase == Idle && w.sent == was.sent
  }

  /** How many of the turns met push their state. */
  function PushesDue(turns: seq<Turn>, unread: seq<nat>): nat
    decreases |unread|
  {
    if unread == [] || |unread| > |turns| then 0
    else
      var n := |unread| - 1;
      PushesDue(turns, unread[..n])
      + if (turns[n].ticked || 0 < unread[n] <= 16) && turns[n].push.write.failure.None? then 1 else 0
  }

  lemma PushesDueOneMore(turns: seq<Turn>, unread: seq<nat>, n: nat)
    requires |unread| < |turns|
    ensures PushesDue(turns, unread + [n]) == PushesDue(turns, unread) +
            if (turns[|unread|].ticked || 0 < n <= 16) && turns[|unread|].push.write.failure.None? then 1 else 0
  {
    assert (unread + [n])[..|unread|] == unread;
  }

  /** A turn that lets the loop go on: nothing was due, or the push got through. */
  predicate GoesOn(turn: Turn, unread: nat) {
    if turn.ticked || 0 < unread <= 16 then turn.push.write.failure.None? else unread == 0
  }

  /** How the loop can leave off: the turns run out; more than 16 notifications are
      unread at a turn without a tick; or a push that is due fails. All turns before
      the last went on. */
  lemma LoopEnds(turns: seq<Turn>, unread: seq<nat>, outcome: Outcome)
    requires IsLoop(turns, unread, outcome)
    ensures |unread| <= |turns|
    ensures forall n :: 0 <= n < |unread| && (outcome == Waiting || n < |unread| - 1) ==> GoesOn(turns[n], unread[n])
    ensures outcome == Waiting ==> |unread| == |turns|
    ensures outcome != Waiting ==>
              var n := |unread| - 1;
              && n >= 0
              && (if outcome == Lagged then !turns[n].ticked && unread[n] > 16
                  else (turns[n].ticked || 0 < unread[n] <= 16) && turns[n].push.write.failure.Some?)
  {
    forall n | 0 <= n < |unread| && (outcome == Waiting || n < |unread| - 1) ensures GoesOn(turns[n], unread[n]) {
      assert OutcomeOf(ChosenAt(turns, unread, n), turns[n].push) == Waiting;
    }
  }

  function ChosenAt(turns: seq<Turn>, unread: seq<nat>, n: nat): Option<Action>
    requires n < |unread| <= |turns|
  {
    Chosen(turns[n].ticked, unread[n])
  }

  /** The actions of as many turns as there are queue lengths. */
  function LoopActions(e: Edge, turns: seq<Turn>, unread: seq<nat>): seq<Action>
    decreases |unread|
  {
    if unread == [] || |unread| > |turns| then []
    else
      var n := |unread| - 1;
      LoopActions(e, turns, unread[..n]) + ActionsOf(e, turns[n].push, ChosenAt(turns, unread, n))
  }

  lemma LoopOneMore(e: Edge, turns: seq<Turn>, unread: seq<nat>, n: nat)
    requires |unread| < |turns|
    ensures LoopActions(e, turns, unread + [n]) ==
            LoopActions(e, turns, unread) + ActionsOf(e, turns[|unread|].push, Chosen(turns[|unread|].ticked, n))
  {
    assert (unread + [n])[..|unread|] == unread;
  }

  /** The select loop waits turn by turn until one ends it or they run out. */
  predicate IsLoop(turns: seq<Turn>, unread: seq<nat>, outcome: Outcome) {
    && |unread| <= |turns|
    && (forall n :: 0 <= n < |unread| - 1 ==> OutcomeOf(ChosenAt(turns, unread, n), turns[n].push) == Waiting)
    && outcome == (if unread == [] then Waiting
                   else OutcomeOf(ChosenAt(turns, unread, |unread| - 1), turns[|unread| - 1].push))
    && (outcome == Waiting ==> |unread| == |turns|)
  }

  /** The Hello and the first push get through. */
  predicate Opens(c: Connection) {
    c.hello.failure.None? && c.first.write.failure.None?
  }

  function OpeningActions(e: Edge, c: Connection): seq<Action> {
    match c.hello.failure
    case None => PushActions(e, c.first)
    case Some(lost) => [Disconnect(Through(lost, e))]
  }

  /** How a session ends, given the lengths of the queue at its turns. */
  predicate IsSession(c: Connection, unread: seq<nat>, outcome: Outcome) {
    if Opens(c) then IsLoop(c.turns, unread, outcome) else unread == [] && outcome == Failed
  }

  /** What the task does in it. */
  function SessionActions(e: Edge, c: Connection, unread: seq<nat>): seq<Action> {
    OpeningActions(e, c) + if Opens(c) then LoopActions(e, c.turns, unread) else []
  }

  lemma LoopTurns(turns: seq<Turn>, unread: seq<nat>, n: nat, outcome: Outcome)
    requires |unread| < |turns| && IsLoop(turns[..|unread|], unread, Waiting)
    requires outcome == OutcomeOf(Chosen(turns[|unread|].ticked, n), turns[|unread|].push)
    ensures IsLoop(turns[..|unread| + 1], unread + [n], outcome)
    ensures outcome != Waiting || |unread| + 1 == |turns| ==> IsLoop(turns, unread + [n], outcome)
  {
    hide Chosen, OutcomeOf;
    var longer, some := unread + [n], turns[..|unread| + 1];
    forall k | 0 <= k < |unread|
      ensures OutcomeOf(ChosenAt(some, longer, k), some[k].push) == Waiting
      ensures OutcomeOf(ChosenAt(turns, longer, k), turns[k].push) == Waiting
    {
      assert OutcomeOf(ChosenAt(turns[..|unread|], unread, k), turns[..|unread|][k].push) == Waiting;
    }
    assert ChosenAt(some, longer, |unread|) == Chosen(turns[|unread|].ticked, n);
  }

  /** The queue lengths are those at successive moments of the run. */
  ghost predicate Observed(states: seq<System>, e: Edge, from: nat, at: seq<nat>, unread: seq<nat>) {
    && |at| == |unread|
    && (forall i, j :: 0 <= i < j < |at| ==> at[i] <= at[j])
    && (forall n :: 0 <= n < |at| ==>
                      && from <= at[n] < |states| && e in states[at[n]].workers
                      && states[at[n]].workers[e].pending == unread[n])
  }

  /** So they are for every session of the outgoing task. */
  ghost predicate AllObserved(states: seq<System>, e: Edge, from: nat, at: seq<seq<nat>>, sessions: seq<Session>) {
    && |at| == |sessions|
    && forall n :: 0 <= n < |at| ==> Observed(states, e, from, at[n], sessions[n].unread)
  }

  lemma AllObservedOneMore(states: seq<System>, states': seq<System>, e: Edge, from: nat, from': nat,
                           at: seq<seq<nat>>, sessions: seq<Session>, more: seq<nat>, s: Session)
    requires states <= states' && from <= from'
    requires AllObserved(states, e, from, at, sessions) && Observed(states', e, from', more, s.unread)
    ensures AllObserved(states', e, from, at + [more], sessions + [s])
  {
    hide Observed;
    forall n | 0 <= n < |at| ensures Observed(states', e, from, at[n], sessions[n].unread) {
      ObservedLater(states, states', e, from, at[n], sessions[n].unread);
    }
    ObservedEarlier(states', e, from, from', more, s.unread);
  }

  lemma ObservedLater(states: seq<System>, states': seq<System>, e: Edge, from: nat, at: seq<nat>, unread: seq<nat>)
    requires states <= states' && Observed(states, e, from, at, unread)
    ensures Observed(states', e, from, at, unread)
  {
  }

  lemma ClonedNow(states: seq<System>, steps: seq<Step>, s: System, from: nat, e: Edge)
    requires |states| == |steps| + 1 && from <= |steps| && e.src in states[|steps|].replicas
    ensures ClonedSince(states + [s], steps + [Work(e, Clone)], from, e, states[|steps|].replicas[e.src].doc)
  {
    assert (steps + [Work(e, Clone)])[|steps|] == Work(e, Clone);
  }

  lemma ClonedEarlier(states: seq<System>, steps: seq<Step>, from: nat, from': nat, e: Edge, d: Doc)
    requires from <= from' && ClonedSince(states, steps, from', e, d)
    ensures ClonedSince(states, steps, from, e, d)
  {
  }

  lemma ClonedLater(states: seq<System>, steps: seq<Step>, states': seq<System>, steps': seq<Step>,
                    from: nat, e: Edge, d: Doc)
    requires states <= states' && steps <= steps' && ClonedSince(states, steps, from, e, d)
    ensures ClonedSince(states', steps', from, e, d)
  {
  }

  lemma NothingYet(states: seq<System>, steps: seq<Step>, w: Worker, e: Edge, turns: seq<Turn>)
    ensures PushesDue(turns, []) == 0
    ensures LoopActions(e, turns, []) == [] && IsLoop(turns[..0], [], Waiting) && Observed(states, e, |steps|, [], [])
    ensures SentSince(w.sent, w.sent, states, steps, |steps|, e)
  {
  }

  lemma ObservedOneMore(states: seq<System>, states': seq<System>, e: Edge, from: nat, at: seq<nat>, unread: seq<nat>,
                        when: nat)
    requires Observed(states, e, from, at, unread) && states <= states'
    requires from <= when < |states'| && |states| - 1 <= when && e in states'[when].workers
    ensures Observed(states', e, from, at + [when], unread + [states'[when].workers[e].pending])
  {
  }

  lemma ObservedEarlier(states: seq<System>, e: Edge, from: nat, from': nat, at: seq<nat>, unread: seq<nat>)
    requires from <= from' && Observed(states, e, from', at, unread)
    ensures Observed(states, e, from, at, unread)
  {
  }

  predicate IsAttempt(a: Attempt, s: Session) {
    match a.result
    case None => s == Session([], Failed)
    case Some(c) => IsSession(c, s.unread, s.outcome)
  }

  /** How an attempt ends: failed if the connection, the Hello or the first push
      does, and otherwise as its loop does (see LoopEnds). */
  lemma AttemptEnds(a: Attempt, s: Session)
    requires IsAttempt(a, s)
    ensures a.result.None? || a.result.value.hello.failure.Some? || a.result.value.first.write.failure.Some? ==>
              s.outcome == Failed && s.unread == []
    ensures a.result.Some? && a.result.value.hello.failure.None? && a.result.value.first.write.failure.None? ==>
              IsLoop(a.result.value.turns, s.unread, s.outcome)
  {
    hide IsLoop;
  }

  function AttemptActions(e: Edge, a: Attempt, s: Session): seq<Action> {
    match a.result
    case None => []
    case Some(c) => [Connect, Subscribe] + SessionActions(e, c, s.unread)
  }

  predicate StillWaiting(sessions: seq<Session>) {
    sessions != [] && sessions[|sessions| - 1].outcome.Waiting?
  }

  /** Every session but the last has ended, and only a session that still waits
      keeps the task from the next attempt. */
  predicate AreAttempts(attempts: seq<Attempt>, sessions: seq<Session>) {
    && |sessions| <= |attempts|
    && (forall n :: 0 <= n < |sessions| ==> IsAttempt(attempts[n], sessions[n]))
    && (forall n :: 0 <= n < |sessions| - 1 ==> !sessions[n].outcome.Waiting?)
    && (!StillWaiting(sessions) ==> |sessions| == |attempts|)
  }

  function AllActions(e: Edge, attempts: seq<Attempt>, sessions: seq<Session>): seq<Action>
    decreases |sessions|
  {
    if sessions == [] || |sessions| > |attempts| then []
    else
      var n := |sessions| - 1;
      AllActions(e, attempts, sessions[..n]) + AttemptActions(e, attempts[n], sessions[n])
  }

  /** How many snapshots an attempt sends. */
  function AttemptPushes(a: Attempt, s: Session): nat {
    match a.result
    case None => 0
    case Some(c) => if Opens(c) then 1 + PushesDue(c.turns, s.unread) else 0
  }

  function AllPushes(attempts: seq<Attempt>, sessions: seq<Session>): nat
    decreases |sessions|
  {
    if sessions == [] || |sessions| > |attempts| then 0
    else
      var n := |sessions| - 1;
      AllPushes(attempts, sessions[..n]) + AttemptPushes(attempts[n], sessions[n])
  }

  lemma AllPushesOneMore(attempts: seq<Attempt>, sessions: seq<Session>, s: Session)
    requires |sessions| < |attempts|
    ensures AllPushes(attempts, sessions + [s]) == AllPushes(attempts, sessions) + AttemptPushes(attempts[|sessions|], s)
  {
    assert (sessions + [s])[..|sessions|] == sessions;
  }

  lemma {:induction false} AllActionsOfPrefix(e: Edge, attempts: seq<Attempt>, sessions: seq<Session>, n: nat)
    requires |sessions| <= n <= |attempts|
    ensures AllActions(e, attempts[..n], sessions) == AllActions(e, attempts, sessions)
    decreases |sessions|
  {
    hide IsAttempt, AttemptActions;
    if sessions != [] {
      AllActionsOfPrefix(e, attempts, sessions[..|sessions| - 1], n);
    }
  }

  lemma NoAttempts(e: Edge, attempts: seq<Attempt>)
    ensures AllPushes(attempts, []) == 0
    ensures AreAttempts(attempts[..0], []) && AllActions(e, attempts[..0], []) == []
  {
  }

  lemma AttemptsOneMore(e: Edge, attempts: seq<Attempt>, sessions: seq<Session>, s: Session)
    requires |sessions| < |attempts| && IsAttempt(attempts[|sessions|], s)
    requires AreAttempts(attempts[..|sessions|], sessions) && !StillWaiting(sessions)
    ensures AreAttempts(attempts[..|sessions| + 1], sessions + [s])
    ensures s.outcome.Waiting? || |sessions| + 1 == |attempts| ==> AreAttempts(attempts, sessions + [s])
    ensures AllActions(e, attempts[..|sessions| + 1], sessions + [s]) ==
            AllActions(e, attempts[..|sessions|], sessions) + AttemptActions(e, attempts[|sessions|], s)
    ensures s.outcome.Waiting? ==>
              AllActions(e, attempts, sessions + [s]) == AllActions(e, attempts[..|sessions| + 1], sessions + [s])
  {
    hide IsAttempt, AttemptActions;
    var longer, some := sessions + [s], attempts[..|sessions| + 1];
    forall k | 0 <= k < |longer| ensures IsAttempt(some[k], longer[k]) && IsAttempt(attempts[k], longer[k]) {
      assert k < |sessions| ==> IsAttempt(attempts[..|sessions|][k], sessions[k]);
    }
    assert longer[..|sessions|] == sessions && some[..|sessions|] == attempts[..|sessions|];
    AllActionsOfPrefix(e, some, sessions, |sessions|);
    AllActionsOfPrefix(e, attempts, longer, |sessions| + 1);
  }

  // ----- what an incoming connection reads -----

  /** How many arrivals there are before the first that cannot be read. */
  function Readable(incoming: seq<Incoming>): (n: nat)
    ensures n <= |incoming| && (n < |incoming| ==> incoming[n].arrival.Broken?)
    ensures forall k :: 0 <= k < n ==> !incoming[k].arrival.Broken?
  {
    if incoming == [] || incoming[0].arrival.Broken? then 0 else 1 + Readable(incoming[1..])
  }

  /** The states among the arrivals that were in flight when it was their turn. */
  function Read(incoming: seq<Incoming>, arrived: seq<bool>): seq<Doc>
    requires |arrived| <= |incoming|
    decreases |arrived|
  {
    if arrived == [] then []
    else
      var n := |arrived| - 1;
      Read(incoming, arrived[..n])
      + if incoming[n].arrival.State? && arrived[n] then [incoming[n].arrival.f.doc] else []
  }

  /** At moment `t` an arrival is a state in flight to `id` exactly if `arrived`, and
      then it is merged by the next step. */
  ghost predicate Reads(id: U64, states: seq<System>, steps: seq<Step>, t: nat, a: Arrival, arrived: bool) {
    && t < |states|
    && (arrived <==> a.State? && a.f in states[t].flight && a.f.via.dst == id)
    && (arrived ==> t < |steps| && steps[t] == Deliver(a.f, a.again))
  }

  /** The replica after merging states one after the other. */
  function ReceivedAll(rep: Replica, docs: seq<Doc>): Replica {
    if docs == [] then rep
    else Received(ReceivedAll(rep, docs[..|docs| - 1]), docs[|docs| - 1])
  }

  /** What `arrived` says holds at successive moments of the run. */
  ghost predicate AllReads(id: U64, states: seq<System>, steps: seq<Step>, from: nat, incoming: seq<Incoming>,
                           at: seq<nat>, arrived: seq<bool>) {
    && |at| == |arrived| <= |incoming|
    && (forall i, j :: 0 <= i < j < |at| ==> at[i] <= at[j])
    && (forall n :: 0 <= n < |at| ==>
                      from <= at[n] <= |steps| && Reads(id, states, steps, at[n], incoming[n].arrival, arrived[n]))
  }

  lemma NothingRead(id: U64, states: seq<System>, steps: seq<Step>, from: nat, incoming: seq<Incoming>)
    ensures AllReads(id, states, steps, from, incoming, [], []) && Read(incoming, []) == []
    ensures forall rep :: ReceivedAll(rep, []) == rep
  {
  }

  lemma ReadsLater(id: U64, states: seq<System>, steps: seq<Step>, states': seq<System>, steps': seq<Step>,
                   t: nat, a: Arrival, arrived: bool)
    requires states <= states' && steps <= steps' && Reads(id, states, steps, t, a, arrived)
    ensures Reads(id, states', steps', t, a, arrived)
  {
  }

  lemma AllReadsLater(id: U64, states: seq<System>, steps: seq<Step>, states': seq<System>, steps': seq<Step>,
                      from: nat, incoming: seq<Incoming>, at: seq<nat>, arrived: seq<bool>)
    requires states <= states' && steps <= steps' && AllReads(id, states, steps, from, incoming, at, arrived)
    ensures AllReads(id, states', steps', from, incoming, at, arrived)
  {
    hide Reads;
    forall n | 0 <= n < |at|
      ensures from <= at[n] <= |steps'| && Reads(id, states', steps', at[n], incoming[n].arrival, arrived[n])
    {
      ReadsLater(id, states, steps, states', steps', at[n], incoming[n].arrival, arrived[n]);
    }
  }

  lemma AllReadsOneMore(id: U64, states: seq<System>, steps: seq<Step>, states': seq<System>, steps': seq<Step>,
                        from: nat, incoming: seq<Incoming>, at: seq<nat>, arrived: seq<bool>, when: nat, here: bool)
    requires states <= states' && steps <= steps' && AllReads(id, states, steps, from, incoming, at, arrived)
    requires |arrived| < |incoming| && from <= |steps| <= when <= |steps'|
    requires Reads(id, states', steps', when, incoming[|arrived|].arrival, here)
    ensures AllReads(id, states', steps', from, incoming, at + [when], arrived + [here])
  {
    hide Reads;
    AllReadsLater(id, states, steps, states', steps', from, incoming, at, arrived);
  }

  /** Nothing else happens while the connection waits. */
  predicate Undisturbing(incoming: seq<Incoming>) {
    forall n :: 0 <= n < |incoming| ==> incoming[n].others == []
  }

  lemma ReadOneMore(incoming: seq<Incoming>, arrived: seq<bool>, here: bool)
    requires |arrived| < |incoming|
    ensures var a := incoming[|arrived|].arrival;
            Read(incoming, arrived + [here]) == Read(incoming, arrived) + if a.State? && here then [a.f.doc] else []
  {
    assert (arrived + [here])[..|arrived|] == arrived;
  }

  lemma ReceivedOneMore(rep: Replica, docs: seq<Doc>, d: Doc)
    ensures ReceivedAll(rep, docs + [d]) == Received(ReceivedAll(rep, docs), d)
  {
    assert (docs + [d])[..|docs|] == docs;
  }

  /** Whatever consistent states arrive, in whatever order and however often, the
      receiver ends up at the least state above its own and all of theirs. */
  lemma {:induction false} ReceivedAllIsLub(rep: Replica, docs: seq<Doc>, u: Doc)
    requires forall i, j :: 0 <= i < |docs| && 0 <= j < |docs| ==> Consistent(docs[i], docs[j])
    requires forall i :: 0 <= i < |docs| ==> Consistent(rep.doc, docs[i])
    ensures Leq(rep.doc, ReceivedAll(rep, docs).doc)
    ensures forall i :: 0 <= i < |docs| ==> Leq(docs[i], ReceivedAll(rep, docs).doc)
    ensures Leq(rep.doc, u) && (forall i :: 0 <= i < |docs| ==> Leq(docs[i], u))
            ==> Leq(ReceivedAll(rep, docs).doc, u)
  {
    hide Leq, LeqCore, Consistent, Merged;
    var all := ReceivedAll(rep, docs).doc;
    if docs == [] {
      LeqReflexive(rep.doc);
    } else {
      var rest, last := docs[..|docs| - 1], docs[|docs| - 1];
      var before := ReceivedAll(rep, rest).doc;
      ReceivedAllIsLub(rep, rest, u);
      ReceivedAllConsistent(rep, rest, last);
      MergeLeastAbove(before, last, u);
      MergeAboveRightIff(before, last);
      LeqChain(rep.doc, before, all);
      forall i | 0 <= i < |docs| ensures Leq(docs[i], all) {
        if i < |rest| {
          assert docs[i] == rest[i];
          LeqChain(rest[i], before, all);
        }
      }
    }
  }

  lemma MergedConsistent(a: Doc, b: Doc, d: Doc)
    requires Consistent(a, d) && Consistent(b, d)
    ensures Consistent(Merged(a, b), d)
  {
    AgreeWithFillIn(d.texts, a.texts, b.texts);
    AgreeWithFillIn(d.creators, a.creators, b.creators);
    assert Merged(a, b).texts == FillIn(a.texts, b.texts);
    assert Merged(a, b).creators == FillIn(a.creators, b.creators);
  }

  lemma {:induction false} ReceivedAllConsistent(rep: Replica, docs: seq<Doc>, d: Doc)
    requires Consistent(rep.doc, d)
    requires forall i :: 0 <= i < |docs| ==> Consistent(docs[i], d)
    ensures Consistent(ReceivedAll(rep, docs).doc, d)
  {
    hide Consistent, Merged;
    if docs != [] {
      var rest, last := docs[..|docs| - 1], docs[|docs| - 1];
      ReceivedAllConsistent(rep, rest, d);
      MergedConsistent(ReceivedAll(rep, rest).doc, last, d);
    }
  }
}
