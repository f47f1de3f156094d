/** What the connections guarantee: wakeups are not lost, lost connections lose
    nothing, and rounds of pushes converge. */
module Sync {
  import Counters
  import opened Base
  import opened TodoIds
  import opened TodoDocs
  import opened Histories
  import opened Network
  import opened Invariants
  import opened Runs
  import Clocks = VectorClocks

  // ----- no lost wakeup -----

  /** The event's effect is in `d`; a toggle's only as far as no un-toggle hides it. */
  ghost predicate Includes(d: Doc, peer: string, logs: Logs, ev: Event) {
    match ev
    case Added(n, id, text) =>
      id in d.added && id in d.texts && d.texts[id] == text && id in d.creators && d.creators[id] == peer
    case Deleted(id) => id in d.removed
    case Toggled(id, was) => NoUntoggle(logs) ==> Flag(d.completed, id)
  }

  lemma ExplainedIncludes(peers: map<U64, string>, logs: Logs, d: Doc, r: U64, k: nat)
    requires Explains(peers, logs, d) && r in peers && r in logs && k < |logs[r]| <= Clocks.Get(d.clock, r)
    ensures Includes(d, peers[r], logs, logs[r][k])
  {
    var e := Dot(r, k + 1);
    assert e in Seen(d.clock) && InLogs(logs, e) && EventAt(logs, e) == logs[r][k];
    assert Labelled(peers, logs, d, e);
    match logs[r][k]
    case Deleted(id) => assert id in DeletedIds(logs, Seen(d.clock));
    case Toggled(id, was) => assert id in ToggledIds(logs, Seen(d.clock));
    case Added(n, id, text) => assert id in AddedIds(logs, Seen(d.clock));
  }

  /** An outgoing worker that waits with nothing to read, while no local message
      still has its notification ahead, has sent on this very connection a snapshot
      with every local operation of its replica. */
  lemma NoLostWakeup(states: seq<System>, steps: seq<Step>, t: nat, e: Edge) returns (last: Doc)
    requires IsRun(states, steps) && t <= |steps| && e in states[t].workers
    requires states[t].workers[e].phase.Idle? && states[t].workers[e].pending == 0
    requires e.src in states[t].unnotified && states[t].unnotified[e.src] == 0
    ensures var w := states[t].workers[e];
            w.base < |w.sent| && last == w.sent[|w.sent| - 1]
    ensures e.src in states[t].peers && e.src in states[t].logs
    ensures Clocks.Get(last.clock, e.src) == |states[t].logs[e.src]|
    ensures forall k :: 0 <= k < |states[t].logs[e.src]| ==>
                          Includes(last, states[t].peers[e.src], states[t].logs, states[t].logs[e.src][k])
  {
    hide Do, Enabled, Init, Explains, UniqueIds, Clocks.Leq, Includes, ReplicasOk, AddsOk, FlightOk, ChainBelow;
    var s := states[t];
    RunInv(states, steps, t);
    InvAtEdge(s, e);
    last := s.workers[e].sent[|s.workers[e].sent| - 1];
    assert last in s.workers[e].sent;
    assert Occurs(s, last);
    RunExplains(states, steps, t, t, last);
    forall k | 0 <= k < |s.logs[e.src]| ensures Includes(last, s.peers[e.src], s.logs, s.logs[e.src][k]) {
      ExplainedIncludes(s.peers, s.logs, last, e.src, k);
    }
  }

  // ----- losing connections -----

  function Docs(s: System): map<U64, Doc> {
    map r | r in s.replicas :: s.replicas[r].doc
  }

  /** All that the replicas know together. */
  ghost function JoinOf(s: System): Doc {
    Join(Docs(s), s.replicas.Keys)
  }

  lemma {:induction false} JoinExplained(peers: map<U64, string>, logs: Logs, docs: map<U64, Doc>, ids: set<U64>)
    requires ids <= docs.Keys && UniqueIds(logs)
    requires forall r :: r in ids ==> Explains(peers, logs, docs[r])
    ensures Explains(peers, logs, Join(docs, ids))
    decreases ids
  {
    hide Explains, UniqueIds, Merged;
    if ids == {} {
      EmptyExplained(peers, logs);
    } else {
      var r :| r in ids && Join(docs, ids) == Merged(docs[r], Join(docs, ids - {r}));
      JoinExplained(peers, logs, docs, ids - {r});
      MergeExplained(peers, logs, docs[r], Join(docs, ids - {r}));
    }
  }

  lemma DocsConsistent(states: seq<System>, steps: seq<Step>, t: nat)
    requires IsRun(states, steps) && t <= |steps|
    ensures PairwiseConsistent(Docs(states[t]))
  {
    hide Do, Enabled, Init, Consistent, Occurs;
    var docs := Docs(states[t]);
    forall p, q | p in docs && q in docs ensures Consistent(docs[p], docs[q]) {
      ReplicaOccurs(states[t], p);
      ReplicaOccurs(states[t], q);
      IdsNeverConflict(states, steps, t, t, docs[p], docs[q]);
    }
  }

  /** Each replica is below the join of the replicas, flags included. */
  lemma ReplicaBelowJoin(states: seq<System>, steps: seq<Step>, t: nat, r: U64)
    requires IsRun(states, steps) && t <= |steps| && r in states[t].replicas
    ensures Leq(states[t].replicas[r].doc, JoinOf(states[t]))
  {
    hide Do, Enabled, Init, Leq, PairwiseConsistent, Join;
    DocsConsistent(states, steps, t);
    JoinAbove(Docs(states[t]), states[t].replicas.Keys, r);
  }

  lemma RunJoinExplained(states: seq<System>, steps: seq<Step>, a: nat, b: nat)
    requires IsRun(states, steps) && a <= b <= |steps|
    ensures Explains(states[b].peers, states[b].logs, JoinOf(states[a])) && UniqueIds(states[b].logs)
  {
    hide Do, Enabled, Init, Explains, UniqueIds, Occurs, Join;
    var docs := Docs(states[a]);
    RunUnique(states, steps, b);
    forall r | r in docs ensures Explains(states[b].peers, states[b].logs, docs[r]) {
      ReplicaOccurs(states[a], r);
      RunExplains(states, steps, a, b, docs[r]);
    }
    JoinExplained(states[b].peers, states[b].logs, docs, states[a].replicas.Keys);
  }

  lemma RunUnique(states: seq<System>, steps: seq<Step>, t: nat)
    requires IsRun(states, steps) && t <= |steps|
    ensures UniqueIds(states[t].logs)
  {
    hide Do, Enabled, Init, UniqueIds, Shape, AllExplained, ReplicasOk, AddsOk, FlightOk, WorkersOk;
    RunInv(states, steps, t);
  }

  /** While no replica performs an effective operation, whatever occurs stays below
      what the replicas knew together (flags aside). */
  lemma OccursBelowJoin(states: seq<System>, steps: seq<Step>, a: nat, b: nat, d: Doc)
    requires IsRun(states, steps) && a <= b <= |steps| && states[b].logs == states[a].logs
    requires Occurs(states[b], d)
    ensures LeqCore(d, JoinOf(states[a]))
  {
    hide Do, Enabled, Init, Explains, UniqueIds, Occurs, Join, JoinOf, LeqCore, Leq, InRange;
    var j := JoinOf(states[a]);
    RunGrows(states, steps, a, b);
    RunJoinExplained(states, steps, a, b);
    RunExplains(states, steps, b, b, d);
    forall r: U64 ensures Clocks.Get(d.clock, r) <= Clocks.Get(j.clock, r) {
      EntryWithinLog(states[b].peers, states[b].logs, d, r);
      RunShape(states, steps, a);
      if r in states[a].replicas {
        var own := states[a].replicas[r].doc;
        ReplicaOccurs(states[a], r);
        NobodyIsAhead(states, steps, a, own, r);
        ReplicaBelowJoin(states, steps, a, r);
        LeqClock(own, j, r);
      } else {
        RunShape(states, steps, b);
      }
    }
    ClockSummarizes(states[b].peers, states[b].logs, d, j);
  }

  lemma LeqClock(a: Doc, b: Doc, r: U64)
    requires Leq(a, b)
    ensures Clocks.Get(a.clock, r) <= Clocks.Get(b.clock, r)
  {
  }

  /** Dropping a connection with its frames loses no information but flags: the
      join of the replicas already contains every snapshot in flight, cloned or
      ever sent, so adding one to the join changes nothing. */
  lemma LostFramesLoseNothing(states: seq<System>, steps: seq<Step>, t: nat, d: Doc)
    requires IsRun(states, steps) && t <= |steps| && Occurs(states[t], d)
    ensures Core(Merged(JoinOf(states[t]), d)) == Core(JoinOf(states[t]))
  {
    hide Do, Enabled, Init, Explains, UniqueIds, Occurs, Join, JoinOf, LeqCore, Leq, Merged, Core, Consistent;
    var j := JoinOf(states[t]);
    OccursBelowJoin(states, steps, t, t, d);
    RunJoinExplained(states, steps, t, t);
    RunExplains(states, steps, t, t, d);
    MergeExplained(states[t].peers, states[t].logs, j, d);
    ExplainedPositive(states[t].peers, states[t].logs, j);
    ExplainedPositive(states[t].peers, states[t].logs, Merged(j, d));
    MergeLeastAbove(j, d, j);
    LeqReflexive(j);
    LeqAntisymmetric(Merged(j, d), j);
  }

  /** A frame in flight is behind its sender. */
  lemma FramesAreBehindSender(states: seq<System>, steps: seq<Step>, t: nat, f: Frame)
    requires IsRun(states, steps) && t <= |steps| && f in states[t].flight
    ensures f.via.src in states[t].replicas && LeqCore(f.doc, states[t].replicas[f.via.src].doc)
  {
    hide Do, Enabled, Init, Explains, UniqueIds, Occurs, LeqCore, Clocks.Leq;
    RunInv(states, steps, t);
    InvAtFrame(states[t], f);
    ReplicaOccurs(states[t], f.via.src);
    ClockIsExactSummary(states, steps, t, t, f.doc, states[t].replicas[f.via.src].doc);
  }

  /** The snapshots one edge sends form an increasing chain, across reconnects too. */
  lemma SentSnapshotsIncrease(states: seq<System>, steps: seq<Step>, t: nat, e: Edge, i: nat, j: nat)
    requires IsRun(states, steps) && t <= |steps| && e in states[t].workers
    requires i < j < |states[t].workers[e].sent|
    ensures LeqCore(states[t].workers[e].sent[i], states[t].workers[e].sent[j])
  {
    hide Do, Enabled, Init, Explains, UniqueIds, LeqCore, Clocks.Leq, ReplicasOk, AddsOk, FlightOk, Caught;
    RunInv(states, steps, t);
    InvAtEdge(states[t], e);
    var sent := states[t].workers[e].sent;
    assert sent[i] in sent && sent[j] in sent;
    assert Occurs(states[t], sent[i]) && Occurs(states[t], sent[j]);
    ClockIsExactSummary(states, steps, t, t, sent[i], sent[j]);
  }

  // ----- counting ids -----

  /** The first n ids of a peer. */
  ghost function HandedOut(peer: string, n: nat): set<string> {
    if n == 0 then {} else HandedOut(peer, n - 1) + {PrintId(peer, n)}
  }

  lemma {:induction false} HandedOutMember(peer: string, n: nat, id: string) returns (m: nat)
    requires id in HandedOut(peer, n)
    ensures 1 <= m <= n && id == PrintId(peer, m)
  {
    if id == PrintId(peer, n) {
      m := n;
    } else {
      m := HandedOutMember(peer, n - 1, id);
    }
  }

  lemma {:induction false} HandedOutHas(peer: string, n: nat, m: nat)
    requires 1 <= m <= n
    ensures PrintId(peer, m) in HandedOut(peer, n)
  {
    if m < n {
      HandedOutHas(peer, n - 1, m);
    }
  }

  lemma {:induction false} HandedOutSize(peer: string, n: nat)
    ensures |HandedOut(peer, n)| == n
  {
    if n > 0 {
      HandedOutSize(peer, n - 1);
      if PrintId(peer, n) in HandedOut(peer, n - 1) {
        var m := HandedOutMember(peer, n - 1, PrintId(peer, n));
        PrintIdInjective(peer, n, peer, m);
      }
    }
  }

  ghost function AllHandedOut(replicas: map<U64, Replica>, rs: set<U64>): set<string>
    requires rs <= replicas.Keys
  {
    if rs == {} then {} else
      var r :| r in rs;
      HandedOut(replicas[r].peerId, replicas[r].nextLocalId) + AllHandedOut(replicas, rs - {r})
  }

  function LocalCounts(replicas: map<U64, Replica>): map<U64, nat> {
    map r | r in replicas :: replicas[r].nextLocalId
  }

  ghost predicate PeerIdsDistinct(replicas: map<U64, Replica>) {
    forall p, q :: p in replicas && q in replicas && replicas[p].peerId == replicas[q].peerId ==> p == q
  }

  lemma {:induction false} AllHandedOutMembers(replicas: map<U64, Replica>, rs: set<U64>, id: string)
    requires rs <= replicas.Keys
    ensures id in AllHandedOut(replicas, rs) <==>
            exists r :: r in rs && id in HandedOut(replicas[r].peerId, replicas[r].nextLocalId)
    decreases rs
  {
    if rs != {} {
      var r :| r in rs && AllHandedOut(replicas, rs) ==
                          HandedOut(replicas[r].peerId, replicas[r].nextLocalId) + AllHandedOut(replicas, rs - {r});
      AllHandedOutMembers(replicas, rs - {r}, id);
    }
  }

  lemma {:induction false} AllHandedOutSize(replicas: map<U64, Replica>, rs: set<U64>)
    requires rs <= replicas.Keys && PeerIdsDistinct(replicas)
    ensures |AllHandedOut(replicas, rs)| == Counters.SumOver(rs, LocalCounts(replicas))
    decreases rs
  {
    if rs != {} {
      var r :| r in rs && AllHandedOut(replicas, rs) ==
                          HandedOut(replicas[r].peerId, replicas[r].nextLocalId) + AllHandedOut(replicas, rs - {r});
      var mine, others := HandedOut(replicas[r].peerId, replicas[r].nextLocalId), AllHandedOut(replicas, rs - {r});
      AllHandedOutSize(replicas, rs - {r});
      HandedOutSize(replicas[r].peerId, replicas[r].nextLocalId);
      Counters.SumOverPick(rs, LocalCounts(replicas), r);
      forall id | id in mine ensures id !in others {
        if id in others {
          AllHandedOutMembers(replicas, rs - {r}, id);
          var q :| q in rs - {r} && id in HandedOut(replicas[q].peerId, replicas[q].nextLocalId);
          var m := HandedOutMember(replicas[r].peerId, replicas[r].nextLocalId, id);
          var k := HandedOutMember(replicas[q].peerId, replicas[q].nextLocalId, id);
          PrintIdInjective(replicas[r].peerId, m, replicas[q].peerId, k);
        }
      }
      assert mine !! others;
    }
  }

  /** Once all replicas hold the same ids, their number is the sum of what the
      replicas' local counters say they handed out. */
  lemma AgreedIdsAreCounted(states: seq<System>, steps: seq<Step>, t: nat, ids: set<string>)
    requires IsRun(states, steps) && t <= |steps| && states[t].replicas != map[]
    requires forall r :: r in states[t].replicas ==> states[t].replicas[r].doc.added == ids
    ensures |ids| == Counters.Sum(LocalCounts(states[t].replicas))
  {
    hide Do, Enabled, Init, Explains, UniqueIds, Occurs, AddsOk, FlightOk, WorkersOk, AllExplained;
    var replicas := states[t].replicas;
    RunInv(states, steps, t);
    forall r | r in replicas
      ensures replicas[r].peerId == states[t].peers[r]
      ensures HandedOut(replicas[r].peerId, replicas[r].nextLocalId) <= ids
    {
      InvAtReplica(states[t], r);
      forall id | id in HandedOut(replicas[r].peerId, replicas[r].nextLocalId) ensures id in ids {
        var m := HandedOutMember(replicas[r].peerId, replicas[r].nextLocalId, id);
      }
    }
    AllHandedOutSize(replicas, replicas.Keys);
    forall id ensures id in ids <==> id in AllHandedOut(replicas, replicas.Keys) {
      AllHandedOutMembers(replicas, replicas.Keys, id);
      if id in ids {
        var any :| any in replicas;
        ReplicaOccurs(states[t], any);
        var r, n := IdsAreOwned(states, steps, t, replicas[any].doc, id);
        HandedOutHas(replicas[r].peerId, replicas[r].nextLocalId, n);
      }
    }
    assert ids == AllHandedOut(replicas, replicas.Keys);
    assert LocalCounts(replicas).Keys == replicas.Keys;
  }
}
