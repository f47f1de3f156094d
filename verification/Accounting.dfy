/** What queues, histories and the network hold at any moment of a run, counted
    from the steps that were taken. */
module Accounting {
  import opened Base
  import opened TodoDocs
  import opened Histories
  import opened Network
  import opened Runs

  /** How often `x` is among the steps from `a` up to `b`. */
  ghost function Times(steps: seq<Step>, a: nat, b: nat, x: Step): nat
    requires a <= b <= |steps|
  {
    multiset(steps[a..b])[x]
  }

  lemma TimesOneMore(steps: seq<Step>, a: nat, b: nat, x: Step)
    requires a <= b < |steps|
    ensures Times(steps, a, b + 1, x) == Times(steps, a, b, x) + if steps[b] == x then 1 else 0
  {
    assert steps[a..b + 1] == steps[a..b] + [steps[b]];
  }

  // ----- the queue of a subscribed worker -----

  /** The worker subscribed at `u` and not again before `t`. */
  ghost predicate SubscribedAt(steps: seq<Step>, u: nat, t: nat, e: Edge) {
    u < t <= |steps| && steps[u] == Work(e, Subscribe) && forall m :: u < m < t ==> steps[m] != Work(e, Subscribe)
  }

  lemma StepAtWorker(s: System, step: Step, e: Edge)
    requires Enabled(s, step) && e in s.workers
    ensures e in Do(s, step).workers
    ensures var w, w' := s.workers[e], Do(s, step).workers[e];
            && (step == Work(e, Subscribe) ==> w'.Subscribed() && w'.pending == 0 && w'.base == |w'.sent|)
            && (step != Work(e, Subscribe) && w'.Subscribed() ==>
                  && w.Subscribed() && w'.base == w.base
                  && w'.pending + (if step == Work(e, Wake) then 1 else 0)
                     == w.pending + (if step == Notify(e.src) then 1 else 0))
            && |w'.sent| == |w.sent| + (if step == Work(e, Send) then 1 else 0)
  {
    hide EventOf, After, Received, FlightAfter;
  }

  /** Since a worker subscribed, its unread notifications are those that were fired
      minus those it has read, and its connection has sent one snapshot per send. */
  lemma {:induction false} QueueConserved(states: seq<System>, steps: seq<Step>, t: nat, e: Edge) returns (u: nat)
    requires IsRun(states, steps) && t <= |steps| && e in states[t].workers && states[t].workers[e].Subscribed()
    ensures SubscribedAt(steps, u, t, e)
    ensures states[t].workers[e].pending + Times(steps, u + 1, t, Work(e, Wake))
            == Times(steps, u + 1, t, Notify(e.src))
    ensures |states[t].workers[e].sent| == states[t].workers[e].base + Times(steps, u + 1, t, Work(e, Send))
  {
    hide Do, InRange, Times;
    u := t - 1;
    RunGrows(states, steps, u, t);
    StepAtWorker(states[u], steps[u], e);
    if steps[u] == Work(e, Subscribe) {
      NoTimes(steps, t);
    } else {
      u := QueueConserved(states, steps, t - 1, e);
      TimesOneMore(steps, u + 1, t - 1, Work(e, Wake));
      TimesOneMore(steps, u + 1, t - 1, Notify(e.src));
      TimesOneMore(steps, u + 1, t - 1, Work(e, Send));
    }
  }

  lemma NoTimes(steps: seq<Step>, a: nat)
    requires a <= |steps|
    ensures forall x :: Times(steps, a, a, x) == 0
  {
    assert steps[a..a] == [];
  }

  /** A new subscription starts with an empty queue and nothing sent. */
  lemma FreshQueueIsEmpty(states: seq<System>, steps: seq<Step>, t: nat, e: Edge)
    requires IsRun(states, steps) && t < |steps| && steps[t] == Work(e, Subscribe)
    ensures e in states[t + 1].workers
    ensures var w := states[t + 1].workers[e];
            w.pending == 0 && w.base == |w.sent| == Times(steps, 0, t, Work(e, Send))
  {
    hide Do, Init, InRange, Times;
    RunGrows(states, steps, t, t + 1);
    StepAtWorker(states[t], steps[t], e);
    SendsCounted(states, steps, t, e);
  }

  /** Nothing is sent but by a send, and every send is remembered. */
  lemma {:induction false} SendsCounted(states: seq<System>, steps: seq<Step>, t: nat, e: Edge)
    requires IsRun(states, steps) && t <= |steps| && e in states[t].workers
    ensures |states[t].workers[e].sent| == Times(steps, 0, t, Work(e, Send))
  {
    hide Do, InRange, Times;
    if t == 0 {
      NoTimes(steps, 0);
    } else {
      RunGrows(states, steps, t - 1, t);
      StepAtWorker(states[t - 1], steps[t - 1], e);
      SendsCounted(states, steps, t - 1, e);
      TimesOneMore(steps, 0, t - 1, Work(e, Send));
    }
  }

  // ----- the order of a worker's actions -----

  /** What the task of edge `e` did last in the first `t` steps. */
  function LastAction(steps: seq<Step>, t: nat, e: Edge): Option<Action>
    requires t <= |steps|
  {
    if t == 0 then None
    else if steps[t - 1].Work? && steps[t - 1].e == e then Some(steps[t - 1].act)
    else LastAction(steps, t - 1, e)
  }

  /** connect, subscribe, push; then wait and push again, until the session ends. */
  predicate MayFollow(last: Option<Action>, act: Action) {
    match last
    case None => act.Connect?
    case Some(Lag) => act.Connect?
    case Some(Disconnect(_)) => act.Connect?
    case Some(Connect) => act.Subscribe?
    case Some(Subscribe) => act.Clone?
    case Some(Wake) => act.Clone?
    case Some(Tick) => act.Clone?
    case Some(Clone) => act.Send?
    case Some(Send) => act.Wake? || act.Tick? || act.Lag?
  }

  ghost predicate PhaseFits(last: Option<Action>, phase: Phase) {
    match last
    case None => phase.Offline?
    case Some(Lag) => phase.Offline?
    case Some(Disconnect(_)) => phase.Offline?
    case Some(Connect) => phase.Connected?
    case Some(Clone) => phase.Holding?
    case Some(Send) => phase.Idle?
    case Some(_) => phase.PushDue?
  }

  lemma StepAtPhase(s: System, step: Step, e: Edge)
    requires Enabled(s, step) && e in s.workers
    ensures e in Do(s, step).workers
    ensures if step.Work? && step.e == e then PhaseFits(Some(step.act), Do(s, step).workers[e].phase)
            else Do(s, step).workers[e].phase == s.workers[e].phase
  {
    hide EventOf, After, Received, FlightAfter;
  }

  lemma {:induction false} LastActionFits(states: seq<System>, steps: seq<Step>, t: nat, e: Edge)
    requires IsRun(states, steps) && t <= |steps| && e in states[t].workers
    ensures PhaseFits(LastAction(steps, t, e), states[t].workers[e].phase)
  {
    hide Do, InRange, PhaseFits;
    if t == 0 {
      assert PhaseFits(None, Offline) by { PhaseAtStart(); }
    } else {
      RunGrows(states, steps, t - 1, t);
      LastActionFits(states, steps, t - 1, e);
      StepAtPhase(states[t - 1], steps[t - 1], e);
    }
  }

  lemma PhaseAtStart()
    ensures PhaseFits(None, Offline)
  {
  }

  lemma SourceExists(states: seq<System>, steps: seq<Step>, t: nat, e: Edge)
    requires IsRun(states, steps) && t <= |steps| && e in states[t].workers
    ensures e.src in states[t].replicas
  {
    hide Do, Enabled, Init, InRange, PeersDistinct;
    RunShape(states, steps, t);
  }

  lemma PossibleByPhase(s: System, e: Edge, last: Option<Action>, act: Action)
    requires e in s.workers && e.src in s.replicas && PhaseFits(last, s.workers[e].phase)
    ensures !act.Disconnect? && !act.Wake? && !act.Lag? ==> (Enabled(s, Work(e, act)) <==> MayFollow(last, act))
    ensures act.Disconnect? ==> (Enabled(s, Work(e, act)) <==> forall f :: f in act.lost ==> f.via == e)
    ensures act.Wake? ==>
              (Enabled(s, Work(e, act)) <==> MayFollow(last, act) && 1 <= s.workers[e].pending <= 16)
    ensures act.Lag? ==>
              (Enabled(s, Work(e, act)) <==> MayFollow(last, act) && s.workers[e].pending > 16)
  {
  }

  /** A worker can take an action exactly if it may follow its last one; reading the
      queue also needs something to read, and a connection can break at any time. */
  lemma ActionPossibleIff(states: seq<System>, steps: seq<Step>, t: nat, e: Edge, act: Action)
    requires IsRun(states, steps) && t <= |steps| && e in states[t].workers
    ensures act.Disconnect? ==>
              (Enabled(states[t], Work(e, act)) <==> forall f :: f in act.lost ==> f.via == e)
    ensures !act.Disconnect? && !act.Wake? && !act.Lag? ==>
              (Enabled(states[t], Work(e, act)) <==> MayFollow(LastAction(steps, t, e), act))
    ensures act.Wake? || act.Lag? ==> (Enabled(states[t], Work(e, act)) ==> MayFollow(LastAction(steps, t, e), act))
  {
    hide Do, Enabled, Init, InRange, LastAction, MayFollow, PhaseFits;
    SourceExists(states, steps, t, e);
    LastActionFits(states, steps, t, e);
    PossibleByPhase(states[t], e, LastAction(steps, t, e), act);
  }

  /** A waiting worker reads a notification exactly if 1 to 16 are unread since it
      subscribed, and finds out that it lags exactly if there are more. */
  lemma ReadPossibleIff(states: seq<System>, steps: seq<Step>, t: nat, u: nat, e: Edge)
    requires IsRun(states, steps) && t <= |steps| && e in states[t].workers
    requires SubscribedAt(steps, u, t, e) && LastAction(steps, t, e) == Some(Send)
    ensures var unread := Times(steps, u + 1, t, Notify(e.src)) - Times(steps, u + 1, t, Work(e, Wake));
            && (Enabled(states[t], Work(e, Wake)) <==> 1 <= unread <= 16)
            && (Enabled(states[t], Work(e, Lag)) <==> unread > 16)
  {
    hide Do, Enabled, Init, InRange, LastAction, Times;
    SourceExists(states, steps, t, e);
    LastActionFits(states, steps, t, e);
    PossibleByPhase(states[t], e, Some(Send), Wake);
    PossibleByPhase(states[t], e, Some(Send), Lag);
    var v := QueueConserved(states, steps, t, e);
    assert u == v;
  }

  // ----- notifications owed -----

  /** How many messages replica `r` was given in the first `t` steps. */
  function Messages(steps: seq<Step>, t: nat, r: U64): nat
    requires t <= |steps|
  {
    if t == 0 then 0
    else Messages(steps, t - 1, r) + if steps[t - 1].Apply? && steps[t - 1].r == r then 1 else 0
  }

  lemma StepAtOwed(s: System, step: Step, r: U64)
    requires Enabled(s, step) && r in s.unnotified
    ensures r in Do(s, step).unnotified
    ensures Do(s, step).unnotified[r] + (if step == Notify(r) then 1 else 0)
            == s.unnotified[r] + (if step.Apply? && step.r == r then 1 else 0)
  {
    hide EventOf, After, Received, AfterAction, FlightAfter;
  }

  /** Every local message is notified once: the notifications still owed are the
      messages applied minus those already fired. */
  lemma {:induction false} NotificationsOwed(states: seq<System>, steps: seq<Step>, t: nat, r: U64)
    requires IsRun(states, steps) && t <= |steps| && r in states[0].unnotified
    ensures r in states[t].unnotified
    ensures states[t].unnotified[r] + Times(steps, 0, t, Notify(r)) == Messages(steps, t, r)
  {
    hide Do, Enabled, InRange, Times;
    if t == 0 {
      NoTimes(steps, 0);
    } else {
      NotificationsOwed(states, steps, t - 1, r);
      StepAtOwed(states[t - 1], steps[t - 1], r);
      TimesOneMore(steps, 0, t - 1, Notify(r));
    }
  }

  // ----- frames in flight -----

  /** The step puts `f` on its way. */
  predicate Launches(s: System, step: Step, f: Frame) {
    step == Work(f.via, Send) && f.via in s.workers && s.workers[f.via].phase == Holding(f.doc)
  }

  /** The step takes `f` off its way: delivered for the last time, or lost, alone or
      with its connection. */
  predicate Removes(step: Step, f: Frame) {
    || step == Deliver(f, false)
    || step == Lose(f)
    || (step.Work? && step.e == f.via && step.act.Disconnect? && f in step.act.lost)
  }

  lemma StepAtFlight(s: System, step: Step, f: Frame)
    requires Enabled(s, step)
    ensures f in Do(s, step).flight <==> Launches(s, step, f) || (f in s.flight && !Removes(step, f))
  {
    hide EventOf, After, Received, AfterAction;
  }

  /** `f` was sent at `u` and not removed before `t`. */
  ghost predicate LaunchedAt(states: seq<System>, steps: seq<Step>, u: nat, t: nat, f: Frame)
    requires |states| == |steps| + 1
  {
    u < t <= |steps| && Launches(states[u], steps[u], f) && forall m :: u < m < t ==> !Removes(steps[m], f)
  }

  /** A frame is in flight exactly if it was sent and has not been delivered for the
      last time or lost since. */
  lemma {:induction false} FlightIff(states: seq<System>, steps: seq<Step>, t: nat, f: Frame)
    requires IsRun(states, steps) && t <= |steps|
    ensures f in states[t].flight <==> exists u: nat :: LaunchedAt(states, steps, u, t, f)
  {
    hide Do, InRange, Launches, Removes;
    if t > 0 {
      var s, step := states[t - 1], steps[t - 1];
      FlightIff(states, steps, t - 1, f);
      assert Enabled(s, step) && states[t] == Do(s, step);
      StepAtFlight(s, step, f);
      if f in states[t].flight {
        if Launches(s, step, f) {
          assert LaunchedAt(states, steps, t - 1, t, f);
        } else {
          var u: nat :| LaunchedAt(states, steps, u, t - 1, f);
          assert LaunchedAt(states, steps, u, t, f);
        }
      }
      if u: nat :| LaunchedAt(states, steps, u, t, f) {
        if u < t - 1 {
          assert LaunchedAt(states, steps, u, t - 1, f);
        }
      }
    }
  }
}
