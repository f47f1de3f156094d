/** TodoState as the mutable object of crates/todo-app/src/state.rs. */
module TodoStates {
  import opened Base
  import opened TodoIds
  import opened TodoDocs
  import opened TodoSnapshots
  import opened GSets
  import Clocks = VectorClocks

  class TodoState {
    const peerId: string
    const replicaId: U64
    var nextLocalId: U64

    const added: GSet<string>
    const removed: GSet<string>
    var texts: map<string, string>
    var completed: map<string, bool>
    var creators: map<string, string>
    const clock: Clocks.VectorClock

    /** The parts are owned by this state and distinct, as struct fields are. */
    ghost predicate Valid() {
      added != removed
    }

    ghost function Parts(): set<object> {
      {this, added, removed, clock}
    }

    function View(): Replica
      reads this, added, removed, clock
    {
      Replica(peerId, replicaId, nextLocalId,
              Doc(added.elements, removed.elements, texts, completed, creators, clock.entries))
    }

    constructor (peerId: string, replicaId: U64)
      ensures Valid() && fresh(Parts())
      ensures View() == Fresh(peerId, replicaId)
    {
      this.peerId := peerId;
      this.replicaId := replicaId;
      nextLocalId := 0;
      added := new GSet<string>();
      removed := new GSet<string>();
      texts, completed, creators := map[], map[], map[];
      clock := new Clocks.VectorClock();
    }

    /** A deserialized state: the skipped fields take their default values. */
    constructor FromWire(doc: Doc)
      ensures Valid() && fresh(Parts())
      ensures View() == Replica("", 0, 0, doc)
    {
      peerId := "";
      replicaId := 0;
      nextLocalId := 0;
      var a := new GSet<string>();
      var r := new GSet<string>();
      var c := new Clocks.VectorClock();
      a.elements := doc.added;
      r.elements := doc.removed;
      c.entries := doc.clock;
      added, removed, clock := a, r, c;
      texts, completed, creators := doc.texts, doc.completed, doc.creators;
    }

    method Apply(msg: ClientMessage)
      requires Valid()
      modifies Parts()
      ensures View() == After(old(View()), msg)
    {
      match msg
      case Add(text) => Add(text);
      case Toggle(id) => Toggle(id);
      case Delete(id) => Delete(id);
      case Resync =>
    }

    method Add(text: string)
      requires Valid()
      modifies this, added, clock
      ensures View() == AfterAdd(old(View()), text)
    {
      var trimmed := Trim(text);
      if trimmed == "" {
        return;
      }
      var _ := clock.Increment(replicaId);
      var id := NewTodoId();
      var _ := added.Insert(id);
      texts := texts[id := trimmed];
      completed := completed[id := false];
      creators := creators[id := peerId];
    }

    method Toggle(id: string)
      requires Valid()
      modifies `completed, clock
      ensures View() == AfterToggle(old(View()), id)
    {
      if !added.Contains(id) || removed.Contains(id) {
        return;
      }
      var _ := clock.Increment(replicaId);
      var current := if id in completed then completed[id] else false;
      completed := completed[id := !current];
    }

    method Delete(id: string)
      requires Valid()
      modifies removed, clock
      ensures View() == AfterDelete(old(View()), id)
    {
      if !added.Contains(id) {
        return;
      }
      var _ := clock.Increment(replicaId);
      var _ := removed.Insert(id);
    }

    method NewTodoId() returns (id: string)
      modifies `nextLocalId
      ensures nextLocalId == WrappingAdd(old(nextLocalId), 1)
      ensures id == PrintId(peerId, nextLocalId)
    {
      nextLocalId := WrappingAdd(nextLocalId, 1);
      id := PrintId(peerId, nextLocalId);
    }

    /** The result is the one listing of the live items in id order, in whatever
        order the hash set is walked. */
    method Snapshot() returns (msg: ServerMessage)
      ensures IsSnapshot(View(), msg)
      ensures msg.localPeerId == peerId && |msg.peers| == 1
      ensures var p := msg.peers[0];
              p.id == peerId && p.name == "Peer " + peerId && p.online && p.clock == map[peerId := clock.Read(replicaId)]
      ensures var todos := msg.peers[0].todos;
              forall i, j :: 0 <= i < j < |todos| ==> Precedes(todos[i].id, todos[j].id)
    {
      var items: seq<TodoItem> := [];
      var todo := added.elements;
      while todo != {}
        invariant todo <= added.elements
        invariant Collected(View(), items, todo)
        decreases todo
      {
        var id :| id in todo;
        ghost var before := items;
        if !removed.Contains(id) && id in texts {
          items := items + [TodoItem(id, texts[id],
                                     if id in completed then completed[id] else false,
                                     if id in creators then creators[id] else peerId)];
        }
        CollectOne(View(), before, todo, id);
        todo := todo - {id};
      }
      var todos := SortById(items);
      SortedIsListing(View(), items, todos);
      ListingAscends(View(), todos);
      var peerClock := map[peerId := clock.Read(replicaId)];
      msg := ServerMessage.Snapshot(peerId, [PeerSnapshot(peerId, "Peer " + peerId, true, peerClock, todos)]);
    }

    /** The borrow rules keep `other` apart from this state. */
    method Merge(other: TodoState)
      requires Valid() && other.Valid() && Parts() !! other.Parts()
      modifies Parts()
      ensures View() == old(View()).(doc := Merged(old(View().doc), other.View().doc))
    {
      added.Merge(other.added);
      removed.Merge(other.removed);
      MergeTexts(other.texts);
      MergeCreators(other.creators);
      MergeCompleted(other.completed);
      clock.Merge(other.clock);
    }

    method MergeTexts(theirs: map<string, string>)
      modifies `texts
      ensures texts == FillIn(old(texts), theirs)
    {
      var todo := theirs.Keys;
      while todo != {}
        invariant todo <= theirs.Keys
        invariant texts == FillIn(old(texts), theirs - todo)
        decreases todo
      {
        var id :| id in todo;
        if id !in texts {
          texts := texts[id := theirs[id]];
        }
        todo := todo - {id};
      }
      assert theirs - {} == theirs;
    }

    method MergeCreators(theirs: map<string, string>)
      modifies `creators
      ensures creators == FillIn(old(creators), theirs)
    {
      var todo := theirs.Keys;
      while todo != {}
        invariant todo <= theirs.Keys
        invariant creators == FillIn(old(creators), theirs - todo)
        decreases todo
      {
        var id :| id in todo;
        if id !in creators {
          creators := creators[id := theirs[id]];
        }
        todo := todo - {id};
      }
      assert theirs - {} == theirs;
    }

    method MergeCompleted(theirs: map<string, bool>)
      modifies `completed
      ensures completed == OrFlags(old(completed), theirs)
    {
      var todo := theirs.Keys;
      while todo != {}
        invariant todo <= theirs.Keys
        invariant completed == OrFlags(old(completed), theirs - todo)
        decreases todo
      {
        var id :| id in todo;
        if id !in completed {
          completed := completed[id := false];
        }
        completed := completed[id := completed[id] || theirs[id]];
        OrFlagsStep(old(completed), theirs, todo, id);
        todo := todo - {id};
      }
      assert theirs - {} == theirs;
    }
  }

  /** a.merge(b), then b.merge(a): afterwards both hold the same replicated fields,
      which contain what each held before. */
  method SyncPair(a: TodoState, b: TodoState)
    requires a.Valid() && b.Valid() && a.Parts() !! b.Parts()
    requires Clocks.Positive(a.clock.entries) && Clocks.Positive(b.clock.entries)
    requires Consistent(a.View().doc, b.View().doc)
    modifies a.Parts(), b.Parts()
    ensures a.View().doc == b.View().doc
    ensures Leq(old(a.View().doc), a.View().doc) && Leq(old(b.View().doc), a.View().doc)
    ensures forall u :: Leq(old(a.View().doc), u) && Leq(old(b.View().doc), u) ==> Leq(a.View().doc, u)
  {
    ghost var x, y := a.View().doc, b.View().doc;
    a.Merge(b);
    b.Merge(a);
    MutualMergeAgrees(x, y);
    MergeLeastAbove(x, y, x);
    MergeAboveRightIff(x, y);
    forall u | Leq(x, u) && Leq(y, u) ensures Leq(Merged(x, y), u) {
      MergeLeastAbove(x, y, u);
    }
  }
}
