/** A local operation, seen as one more event in the replica's log. */
module LocalSteps {
  import opened Base
  import opened TodoIds
  import opened TodoDocs
  import opened Histories
  import opened Network
  import Clocks = VectorClocks

  /** What an event does to the state of the replica it happens at. */
  function Affected(d: Doc, r: U64, peer: string, ev: Event): Doc {
    var clock := Clocks.Incremented(d.clock, r);
    match ev
    case Added(n, id, text) =>
      Doc(d.added + {id}, d.removed, d.texts[id := text], d.completed[id := false], d.creators[id := peer], clock)
    case Toggled(id, was) => d.(completed := d.completed[id := !was], clock := clock)
    case Deleted(id) => d.(removed := d.removed + {id}, clock := clock)
  }

  /** What can be said about the event of a message without looking at the message. */
  ghost predicate Fits(rep: Replica, ev: Event) {
    match ev
    case Added(n, id, text) =>
      n == WrappingAdd(rep.nextLocalId, 1) && id == PrintId(rep.peerId, n) && text != "" && IsTrimmed(text)
    case Toggled(id, was) => id in rep.doc.added && was == Flag(rep.doc.completed, id)
    case Deleted(id) => id in rep.doc.added
  }

  /** A message without an event changes nothing; one with an event has exactly
      the event's effect. */
  lemma EffectOf(rep: Replica, msg: ClientMessage)
    ensures match EventOf(rep, msg)
            case None => After(rep, msg) == rep
            case Some(ev) =>
              && Fits(rep, ev)
              && After(rep, msg) ==
                 rep.(doc := Affected(rep.doc, rep.replicaId, rep.peerId, ev),
                      nextLocalId := if ev.Added? then ev.n else rep.nextLocalId)
  {
    if msg.Add? {
      var _, _ := TrimSplits(msg.text);
    }
  }

  /** The dot that the next event of replica `r` gets. */
  function NextDot(logs: Logs, r: U64): Dot
    requires r in logs
  {
    Dot(r, |logs[r]| + 1)
  }

  function Extended(logs: Logs, r: U64, ev: Event): Logs
    requires r in logs
  {
    logs[r := logs[r] + [ev]]
  }

  lemma ExtendedEvents(logs: Logs, r: U64, ev: Event)
    requires r in logs
    ensures Grows(logs, Extended(logs, r, ev))
    ensures InLogs(Extended(logs, r, ev), NextDot(logs, r))
    ensures EventAt(Extended(logs, r, ev), NextDot(logs, r)) == ev
    ensures forall e :: InLogs(Extended(logs, r, ev), e) <==> InLogs(logs, e) || e == NextDot(logs, r)
    ensures forall e :: InLogs(logs, e) ==>
                          InLogs(Extended(logs, r, ev), e) && EventAt(Extended(logs, r, ev), e) == EventAt(logs, e)
  {
  }

  lemma IdsOfOne(logs: Logs, e: Dot)
    requires InLogs(logs, e)
    ensures AddedIds(logs, {e}) == (if EventAt(logs, e).Added? then {EventAt(logs, e).id} else {})
    ensures DeletedIds(logs, {e}) == (if EventAt(logs, e).Deleted? then {EventAt(logs, e).id} else {})
    ensures ToggledIds(logs, {e}) == (if EventAt(logs, e).Toggled? then {EventAt(logs, e).id} else {})
  {
    var id := EventAt(logs, e).id;
    assert id in AddedIds(logs, {e}) <==> EventAt(logs, e).Added?;
    assert id in DeletedIds(logs, {e}) <==> EventAt(logs, e).Deleted?;
    assert id in ToggledIds(logs, {e}) <==> EventAt(logs, e).Toggled?;
  }

  /** The clock, and what the operations under it add up to, one event later. */
  lemma IdsAfterEvent(logs: Logs, c: Clocks.Clock, r: U64, ev: Event)
    requires r in logs && Clocks.Get(c, r) == |logs[r]| < U64_MAX
    requires forall e :: e in Seen(c) ==> InLogs(logs, e)
    ensures var logs' := Extended(logs, r, ev);
            var seen' := Seen(Clocks.Incremented(c, r));
            && seen' == Seen(c) + {NextDot(logs, r)}
            && AddedIds(logs', seen') == AddedIds(logs, Seen(c)) + (if ev.Added? then {ev.id} else {})
            && DeletedIds(logs', seen') == DeletedIds(logs, Seen(c)) + (if ev.Deleted? then {ev.id} else {})
            && ToggledIds(logs', seen') == ToggledIds(logs, Seen(c)) + (if ev.Toggled? then {ev.id} else {})
  {
    var logs' := Extended(logs, r, ev);
    ExtendedEvents(logs, r, ev);
    SeenIncremented(c, r);
    IdsGrow(logs, logs', Seen(c));
    IdsOfOne(logs', NextDot(logs, r));
    IdsUnion(logs', Seen(c), {NextDot(logs, r)});
  }

  ghost predicate NotYetAdded(logs: Logs, ev: Event) {
    ev.Added? ==> forall e :: InLogs(logs, e) && EventAt(logs, e).Added? ==> EventAt(logs, e).id != ev.id
  }

  lemma AffectedLabel(peers: map<U64, string>, logs: Logs, d: Doc, r: U64, ev: Event, e: Dot)
    requires r in logs && r in peers && NotYetAdded(logs, ev)
    requires (InLogs(logs, e) && Labelled(peers, logs, d, e)) || e == NextDot(logs, r)
    ensures Labelled(peers, Extended(logs, r, ev), Affected(d, r, peers[r], ev), e)
  {
    ExtendedEvents(logs, r, ev);
  }

  lemma AffectedFields(d: Doc, r: U64, peer: string, ev: Event)
    requires d.texts.Keys == d.added && d.creators.Keys == d.added && d.completed.Keys == d.added
    requires ev.Added? || ev.id in d.added
    ensures var d' := Affected(d, r, peer, ev);
            && d'.added == d.added + (if ev.Added? then {ev.id} else {})
            && d'.removed == d.removed + (if ev.Deleted? then {ev.id} else {})
            && d'.texts.Keys == d'.added && d'.creators.Keys == d'.added && d'.completed.Keys == d'.added
            && d'.clock == Clocks.Incremented(d.clock, r)
  {
  }

  lemma AffectedLabels(peers: map<U64, string>, logs: Logs, d: Doc, r: U64, ev: Event)
    requires r in logs && r in peers && NotYetAdded(logs, ev)
    requires Clocks.Get(d.clock, r) == |logs[r]| < U64_MAX
    requires CoreExplained(peers, logs, d)
    ensures forall e :: e in Seen(Clocks.Incremented(d.clock, r)) ==>
                          && InLogs(Extended(logs, r, ev), e)
                          && Labelled(peers, Extended(logs, r, ev), Affected(d, r, peers[r], ev), e)
  {
    ExtendedEvents(logs, r, ev);
    SeenIncremented(d.clock, r);
    hide Extended, Affected, NotYetAdded, Clocks.Incremented, AddedIds, DeletedIds;
    forall e | e in Seen(Clocks.Incremented(d.clock, r))
      ensures InLogs(Extended(logs, r, ev), e)
      ensures Labelled(peers, Extended(logs, r, ev), Affected(d, r, peers[r], ev), e)
    {
      AffectedLabel(peers, logs, d, r, ev, e);
    }
  }

  lemma AffectedCore(peers: map<U64, string>, logs: Logs, d: Doc, r: U64, ev: Event)
    requires r in logs && r in peers && NotYetAdded(logs, ev)
    requires Clocks.Get(d.clock, r) == |logs[r]| < U64_MAX
    requires ev.Added? || ev.id in d.added
    requires CoreExplained(peers, logs, d)
    ensures CoreExplained(peers, Extended(logs, r, ev), Affected(d, r, peers[r], ev))
  {
    IdsAfterEvent(logs, d.clock, r, ev);
    Clocks.OperationsKeepPositive(d.clock, d.clock, r, 0);
    AffectedFields(d, r, peers[r], ev);
    AffectedLabels(peers, logs, d, r, ev);
    hide Extended, Affected, NotYetAdded, Clocks.Incremented, Clocks.Positive, AddedIds, DeletedIds, Labelled, Seen, InLogs;
  }

  lemma AffectedFlag(d: Doc, r: U64, peer: string, ev: Event, id: string)
    requires ev.Added? <==> ev.id !in d.added
    requires ev.Toggled? ==> ev.was == Flag(d.completed, ev.id)
    ensures Flag(Affected(d, r, peer, ev).completed, id) ==
            if id != ev.id || ev.Deleted? then Flag(d.completed, id) else ev.Toggled? && !ev.was
  {
  }

  lemma NoUntoggleBefore(logs: Logs, r: U64, ev: Event)
    requires r in logs && NoUntoggle(Extended(logs, r, ev))
    ensures NoUntoggle(logs) && (ev.Toggled? ==> !ev.was)
  {
    var logs' := Extended(logs, r, ev);
    ExtendedEvents(logs, r, ev);
    forall e | InLogs(logs, e) && EventAt(logs, e).Toggled? ensures !EventAt(logs, e).was {
      assert EventAt(logs', e) == EventAt(logs, e);
    }
    assert EventAt(logs', NextDot(logs, r)) == ev;
  }

  lemma AffectedFlags(logs: Logs, d: Doc, r: U64, peer: string, ev: Event)
    requires r in logs
    requires Clocks.Get(d.clock, r) == |logs[r]| < U64_MAX
    requires ev.Added? <==> ev.id !in d.added
    requires ev.Toggled? ==> ev.was == Flag(d.completed, ev.id)
    requires forall e :: e in Seen(d.clock) ==> InLogs(logs, e)
    requires d.texts.Keys == d.added && d.creators.Keys == d.added && d.completed.Keys == d.added
    requires FlagsExplained(logs, d)
    ensures FlagsExplained(Extended(logs, r, ev), Affected(d, r, peer, ev))
  {
    hide Extended, Affected, AddedIds, DeletedIds, ToggledIds, NoUntoggle, Clocks.Incremented, Seen, Flag;
    var logs', d' := Extended(logs, r, ev), Affected(d, r, peer, ev);
    IdsAfterEvent(logs, d.clock, r, ev);
    AffectedFields(d, r, peer, ev);
    forall id
      ensures Flag(d'.completed, id) ==
              if id != ev.id || ev.Deleted? then Flag(d.completed, id) else ev.Toggled? && !ev.was
    {
      AffectedFlag(d, r, peer, ev, id);
    }
    if NoUntoggle(logs') {
      NoUntoggleBefore(logs, r, ev);
    }
  }

  /** The replica's new state is explained by the longer log. */
  lemma AffectedExplained(peers: map<U64, string>, logs: Logs, rep: Replica, r: U64, ev: Event)
    requires r in logs && r in peers && NotYetAdded(logs, ev) && Fits(rep, ev)
    requires Clocks.Get(rep.doc.clock, r) == |logs[r]| < U64_MAX
    requires Explains(peers, logs, rep.doc)
    ensures Explains(peers, Extended(logs, r, ev), Affected(rep.doc, r, peers[r], ev))
  {
    AffectedCore(peers, logs, rep.doc, r, ev);
    if ev.Added? && ev.id in rep.doc.added {
      var e := LabelOf(peers, logs, rep.doc, ev.id);
      assert false;
    }
    AffectedFlags(logs, rep.doc, r, peers[r], ev);
  }
}
